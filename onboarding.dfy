/**
 * The first-run guide: which step the user is on is worked out from what the
 * open documents hold, and a completed guide stays completed.
 */
module Onboarding {
  import opened Sheets

  datatype OnboardingStep = NotStarted | ImportFrame | CreateAnimation | PlaceFrameOnTimeline | Completed

  /** How far along the guide a step is. */
  function Rank(step: OnboardingStep): (r: nat)
    ensures r <= 4
  {
    match step
    case NotStarted => 0
    case ImportFrame => 1
    case CreateAnimation => 2
    case PlaceFrameOnTimeline => 3
    case Completed => 4
  }

  predicate AnyFrame(sheets: seq<Sheet>) {
    exists i :: 0 <= i < |sheets| && sheets[i].frames != []
  }

  predicate AnyAnimation(sheets: seq<Sheet>) {
    exists i :: 0 <= i < |sheets| && sheets[i].animations != map[]
  }

  /** Some sequence of some animation of some open document holds a keyframe. */
  predicate AnyKeyframe(sheets: seq<Sheet>) {
    exists i, name, d :: 0 <= i < |sheets| && name in sheets[i].animations && d in sheets[i].animations[name].sequences
                         && sheets[i].animations[name].sequences[d].keyframes != []
  }

  /**
   * `State::compute_onboarding_step`: Completed stays Completed; otherwise
   * the step is the first thing missing from the open documents (a
   * document, a frame, an animation, a keyframe), and Completed once none is.
   */
  function ComputeOnboardingStep(current: OnboardingStep, sheets: seq<Sheet>): (r: OnboardingStep)
    ensures current == Completed ==> r == Completed
    ensures r == Completed <==> current == Completed || (AnyFrame(sheets) && AnyAnimation(sheets) && AnyKeyframe(sheets))
    ensures r == NotStarted <==> current != Completed && sheets == []
    ensures r == ImportFrame <==> current != Completed && sheets != [] && !AnyFrame(sheets)
  {
    if current == Completed then Completed
    else if sheets == [] then NotStarted
    else if !AnyFrame(sheets) then ImportFrame
    else if !AnyAnimation(sheets) then CreateAnimation
    else if !AnyKeyframe(sheets) then PlaceFrameOnTimeline
    else Completed
  }

  /** A keyframe lives in an animation, so the guide is complete as soon as a frame and a keyframe exist. */
  lemma KeyframeNeedsAnimation(current: OnboardingStep, sheets: seq<Sheet>)
    requires AnyKeyframe(sheets)
    ensures AnyAnimation(sheets)
    ensures AnyFrame(sheets) ==> ComputeOnboardingStep(current, sheets) == Completed
  {
    var i, name, d :| 0 <= i < |sheets| && name in sheets[i].animations && d in sheets[i].animations[name].sequences
                      && sheets[i].animations[name].sequences[d].keyframes != [];
    assert name in sheets[i].animations.Keys;
  }

  /** Opening one more document never moves the guide back. */
  lemma OpeningNeverRegresses(current: OnboardingStep, sheets: seq<Sheet>, sheet: Sheet)
    ensures Rank(ComputeOnboardingStep(current, sheets + [sheet])) >= Rank(ComputeOnboardingStep(current, sheets))
  {
    var more := sheets + [sheet];
    assert forall i :: 0 <= i < |sheets| ==> more[i] == sheets[i];
    if AnyFrame(sheets) {
      var i :| 0 <= i < |sheets| && sheets[i].frames != [];
      assert more[i].frames != [];
    }
    if AnyAnimation(sheets) {
      var i :| 0 <= i < |sheets| && sheets[i].animations != map[];
      assert more[i].animations != map[];
    }
    if AnyKeyframe(sheets) {
      var i, name, d :| 0 <= i < |sheets| && name in sheets[i].animations && d in sheets[i].animations[name].sequences
                        && sheets[i].animations[name].sequences[d].keyframes != [];
      assert more[i] == sheets[i];
    }
  }

  /**
   * The guided flow on one new document: import a frame, create an
   * animation (with the four directions of a new animation), then place the
   * frame on its North timeline; each step advances the guide by one.
   */
  lemma GuidedFlow()
    ensures var empty := EmptySheet;
      var framed := AddFrame(empty, "frame.png");
      var animated := framed.(animations := map["New Animation" := ApplyDirectionPreset(EmptyAnimation, FourDirections)]);
      var placed := animated.(animations := map["New Animation" :=
        Animation(animated.animations["New Animation"].sequences[North := Sequence([NewKeyframe("frame.png")])], false)]);
      && ComputeOnboardingStep(NotStarted, [empty]) == ImportFrame
      && ComputeOnboardingStep(ImportFrame, [framed]) == CreateAnimation
      && ComputeOnboardingStep(CreateAnimation, [animated]) == PlaceFrameOnTimeline
      && ComputeOnboardingStep(PlaceFrameOnTimeline, [placed]) == Completed
  {
    var framed := AddFrame(EmptySheet, "frame.png");
    assert HasFrame(framed, "frame.png");
    assert AnyFrame([framed]) by {
      assert [framed][0].frames != [];
    }
    assert !AnyAnimation([framed]);
    var animation := ApplyDirectionPreset(EmptyAnimation, FourDirections);
    var animated := framed.(animations := map["New Animation" := animation]);
    assert AnyFrame([animated]) by {
      assert [animated][0].frames != [];
    }
    assert AnyAnimation([animated]) by {
      assert "New Animation" in [animated][0].animations;
    }
    assert !AnyKeyframe([animated]) by {
      forall d | d in animation.sequences
        ensures animation.sequences[d].keyframes == []
      {
      }
    }
    assert North in animation.sequences by {
      assert North in PresetDirections(FourDirections);
    }
    var placed := animated.(animations := map["New Animation" :=
      Animation(animation.sequences[North := Sequence([NewKeyframe("frame.png")])], false)]);
    assert AnyFrame([placed]) by {
      assert [placed][0].frames != [];
    }
    assert AnyAnimation([placed]) by {
      assert "New Animation" in [placed][0].animations;
    }
    assert AnyKeyframe([placed]) by {
      assert [placed][0].animations["New Animation"].sequences[North].keyframes != [];
    }
  }

  /** The application state the guide reads and writes. */
  class OnboardingState {
    var documents: seq<Sheet>
    var step: OnboardingStep

    constructor(documents: seq<Sheet>)
      ensures this.documents == documents && step == NotStarted
    {
      this.documents := documents;
      step := NotStarted;
    }

    /** `State::advance_onboarding`: store the computed step. */
    method AdvanceOnboarding()
      modifies this
      ensures step == ComputeOnboardingStep(old(step), documents)
      ensures documents == old(documents)
    {
      step := ComputeOnboardingStep(step, documents);
    }
  }
}
