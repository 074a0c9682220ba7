/**
 * The front-end keyboard shortcuts: a key-down handler that decides whether
 * to suppress the browser's own shortcut and which single editor action, if
 * any, the key chord stands for.
 */
module Keyboard {
  import opened Wrappers

  /** The four arrow keys, as both browse and nudge directions name them. */
  datatype Arrow = Up | Down | Left | Right

  /**
   * `KeyboardEvent.key`: a printable key is its one character, and the
   * named keys the handler tests are listed; every other named key is
   * `OtherKey`.
   */
  datatype Key = Character(c: char) | Arrow(arrow: Arrow) | Delete | Home | End | F2 | OtherKey

  /** The parts of a `KeyboardEvent` the handler reads. */
  datatype KeyEvent = KeyEvent(key: Key, ctrlKey: bool, shiftKey: bool, altKey: bool)

  /**
   * What the handler reads from the page and the stores: whether a text
   * field has focus, whether the focus store traps input, the current
   * document's path and whether it is playing.
   */
  datatype Context = Context(inputtingText: bool, inputTrapped: bool, currentDocumentPath: Option<string>, playing: bool)

  /** The backend calls the handler can make. */
  datatype Action =
    | NewDocument | OpenDocuments | SaveAll | Save | SaveAs(path: Option<string>)
    | DoExport | BeginExportAs | CloseCurrentDocument | CloseAllDocuments
    | Undo | Redo | Cut | Copy | Paste
    | CenterWorkbench | ZoomInTimeline | ZoomInWorkbench | ZoomOutTimeline | ZoomOutWorkbench
    | ResetTimelineZoom | ResetWorkbenchZoom | SelectAll
    | NudgeSelection(direction: Arrow, large: bool)
    | Play | Pause | DeleteSelection
    | BrowseSelection(direction: Arrow, shift: bool)
    | BrowseToStart(shiftToStart: bool) | BrowseToEnd(shiftToEnd: bool)
    | BeginRenameSelection

  /** The outcome of one key-down event. */
  datatype KeyOutcome = KeyOutcome(preventDefault: bool, action: Option<Action>)

  /**
   * Whether the browser's default handling is suppressed: ctrl with E
   * (search), S (screenshot), z and Z always, and the arrows unless a text
   * field has focus.
   */
  function PreventsDefault(event: KeyEvent, inputtingText: bool): (r: bool)
  {
    || (event.ctrlKey && event.key in [Character('E'), Character('S'), Character('z'), Character('Z')])
    || (!inputtingText && event.key.Arrow?)
  }

  /** The chords with ctrl held. */
  function CtrlShortcut(event: KeyEvent, context: Context): Option<Action>
  {
    var key := event.key;
    if key == Character('n') then Some(NewDocument)
    else if key == Character('o') then Some(OpenDocuments)
    else if key == Character('s') then Some(if event.altKey then SaveAll else Save)
    else if key == Character('S') then Some(SaveAs(context.currentDocumentPath))
    else if key == Character('e') then Some(DoExport)
    else if key == Character('E') then Some(BeginExportAs)
    else if key == Character('w') then Some(CloseCurrentDocument)
    else if key == Character('W') then Some(CloseAllDocuments)
    else if key == Character('z') then Some(Undo)
    else if key == Character('Z') then Some(Redo)
    else if key == Character('x') then Some(Cut)
    else if key == Character('c') then Some(Copy)
    else if key == Character('v') then Some(Paste)
    else if key == Character(' ') then Some(CenterWorkbench)
    else if key == Character('+') || key == Character('=') then Some(if event.altKey then ZoomInTimeline else ZoomInWorkbench)
    else if key == Character('-') then Some(if event.altKey then ZoomOutTimeline else ZoomOutWorkbench)
    else if key == Character('0') then Some(if event.altKey then ResetTimelineZoom else ResetWorkbenchZoom)
    else if key == Character('a') then Some(SelectAll)
    else if key.Arrow? then Some(NudgeSelection(key.arrow, event.shiftKey))
    else None
  }

  /** The chords without ctrl. */
  function PlainShortcut(event: KeyEvent, context: Context): Option<Action>
  {
    var key := event.key;
    if key == Character(' ') then Some(if context.playing then Pause else Play)
    else if key == Delete then Some(DeleteSelection)
    else if key.Arrow? then Some(BrowseSelection(key.arrow, event.shiftKey))
    else if key == Home then Some(BrowseToStart(event.shiftKey))
    else if key == End then Some(BrowseToEnd(event.shiftKey))
    else if key == F2 then Some(BeginRenameSelection)
    else None
  }

  /**
   * `onKeyDown`: nothing is dispatched while a text field has focus or the
   * focus store traps input; otherwise the first matching chord, with or
   * without ctrl, picks the one action.
   */
  function OnKeyDown(event: KeyEvent, context: Context): (r: KeyOutcome)
    ensures context.inputtingText || context.inputTrapped ==> r.action.None?
    ensures event.ctrlKey && event.key in [Character('E'), Character('S'), Character('z'), Character('Z')] ==> r.preventDefault
    ensures event.key.Arrow? ==> (r.preventDefault <==> !context.inputtingText)
  {
    var preventDefault := PreventsDefault(event, context.inputtingText);
    if context.inputtingText || context.inputTrapped then KeyOutcome(preventDefault, None)
    else if event.ctrlKey then KeyOutcome(preventDefault, CtrlShortcut(event, context))
    else KeyOutcome(preventDefault, PlainShortcut(event, context))
  }

  // ----- The shortcut table, written action by action -----

  /**
   * A chord: the key and the state of ctrl; shift and alt are either
   * required to have a given state or ignored (None).
   */
  datatype Chord = Chord(key: Key, ctrl: bool, shift: Option<bool>, alt: Option<bool>)

  predicate Matches(chord: Chord, event: KeyEvent) {
    && chord.key == event.key && chord.ctrl == event.ctrlKey
    && (chord.shift.Some? ==> chord.shift.value == event.shiftKey)
    && (chord.alt.Some? ==> chord.alt.value == event.altKey)
  }

  /** The chords bound to each action, as the editor's shortcut list reads. */
  function Chords(action: Action, context: Context): set<Chord> {
    match action
    case NewDocument => {Chord(Character('n'), true, None, None)}
    case OpenDocuments => {Chord(Character('o'), true, None, None)}
    case SaveAll => {Chord(Character('s'), true, None, Some(true))}
    case Save => {Chord(Character('s'), true, None, Some(false))}
    case SaveAs(path) => if path == context.currentDocumentPath then {Chord(Character('S'), true, None, None)} else {}
    case DoExport => {Chord(Character('e'), true, None, None)}
    case BeginExportAs => {Chord(Character('E'), true, None, None)}
    case CloseCurrentDocument => {Chord(Character('w'), true, None, None)}
    case CloseAllDocuments => {Chord(Character('W'), true, None, None)}
    case Undo => {Chord(Character('z'), true, None, None)}
    case Redo => {Chord(Character('Z'), true, None, None)}
    case Cut => {Chord(Character('x'), true, None, None)}
    case Copy => {Chord(Character('c'), true, None, None)}
    case Paste => {Chord(Character('v'), true, None, None)}
    case CenterWorkbench => {Chord(Character(' '), true, None, None)}
    case ZoomInTimeline => {Chord(Character('+'), true, None, Some(true)), Chord(Character('='), true, None, Some(true))}
    case ZoomInWorkbench => {Chord(Character('+'), true, None, Some(false)), Chord(Character('='), true, None, Some(false))}
    case ZoomOutTimeline => {Chord(Character('-'), true, None, Some(true))}
    case ZoomOutWorkbench => {Chord(Character('-'), true, None, Some(false))}
    case ResetTimelineZoom => {Chord(Character('0'), true, None, Some(true))}
    case ResetWorkbenchZoom => {Chord(Character('0'), true, None, Some(false))}
    case SelectAll => {Chord(Character('a'), true, None, None)}
    case NudgeSelection(direction, large) => {Chord(Arrow(direction), true, Some(large), None)}
    case Play => if context.playing then {} else {Chord(Character(' '), false, None, None)}
    case Pause => if context.playing then {Chord(Character(' '), false, None, None)} else {}
    case DeleteSelection => {Chord(Delete, false, None, None)}
    case BrowseSelection(direction, shift) => {Chord(Arrow(direction), false, Some(shift), None)}
    case BrowseToStart(shift) => {Chord(Home, false, Some(shift), None)}
    case BrowseToEnd(shift) => {Chord(End, false, Some(shift), None)}
    case BeginRenameSelection => {Chord(F2, false, None, None)}
  }

  /** Whatever a ctrl chord dispatches has a chord in the table that matches the event. */
  lemma CtrlActionIsBound(event: KeyEvent, context: Context)
    requires event.ctrlKey
    ensures CtrlShortcut(event, context).Some? ==>
      exists chord :: chord in Chords(CtrlShortcut(event, context).value, context) && Matches(chord, event)
  {
    var key := event.key;
    var action := CtrlShortcut(event, context);
    if key.Arrow? {
      var chord := Chord(key, true, Some(event.shiftKey), None);
      assert chord in Chords(action.value, context) && Matches(chord, event);
    } else if key in [Character('s'), Character('+'), Character('='), Character('-'), Character('0')] {
      var chord := Chord(key, true, None, Some(event.altKey));
      assert chord in Chords(action.value, context) && Matches(chord, event);
    } else if action.Some? {
      CtrlBareChordIsBound(event, context);
      assert Matches(Chord(key, true, None, None), event);
    }
  }

  /** The ctrl chords that ignore shift and alt are in the table as they are. */
  lemma CtrlBareChordIsBound(event: KeyEvent, context: Context)
    requires event.ctrlKey && !event.key.Arrow?
    requires event.key !in [Character('s'), Character('+'), Character('='), Character('-'), Character('0')]
    requires CtrlShortcut(event, context).Some?
    ensures Chord(event.key, true, None, None) in Chords(CtrlShortcut(event, context).value, context)
  {
  }

  /** Whatever a chord without ctrl dispatches has a chord in the table that matches the event. */
  lemma PlainActionIsBound(event: KeyEvent, context: Context)
    requires !event.ctrlKey
    ensures PlainShortcut(event, context).Some? ==>
      exists chord :: chord in Chords(PlainShortcut(event, context).value, context) && Matches(chord, event)
  {
    var key := event.key;
    var action := PlainShortcut(event, context);
    if key.Arrow? {
      var chord := Chord(key, false, Some(event.shiftKey), None);
      assert chord in Chords(action.value, context) && Matches(chord, event);
    } else if key == Home || key == End {
      var chord := Chord(key, false, Some(event.shiftKey), None);
      assert chord in Chords(action.value, context) && Matches(chord, event);
    } else if action.Some? {
      var chord := Chord(key, false, None, None);
      assert chord in Chords(action.value, context) && Matches(chord, event);
    }
  }

  /** Whatever the handler dispatches has a chord in the table that matches the event. */
  lemma DispatchedActionIsBound(event: KeyEvent, context: Context)
    requires !context.inputtingText && !context.inputTrapped
    ensures OnKeyDown(event, context).action.Some? ==>
      exists chord :: chord in Chords(OnKeyDown(event, context).action.value, context) && Matches(chord, event)
  {
    if event.ctrlKey {
      CtrlActionIsBound(event, context);
    } else {
      PlainActionIsBound(event, context);
    }
  }

  /** The ctrl chords for document files and export dispatch the action the table binds them to. */
  lemma BoundFileActionIsDispatched(event: KeyEvent, context: Context, action: Action, chord: Chord)
    requires action.NewDocument? || action.OpenDocuments? || action.SaveAll? || action.Save? || action.SaveAs? || action.DoExport? || action.BeginExportAs? || action.CloseCurrentDocument? || action.CloseAllDocuments?
    requires chord in Chords(action, context) && Matches(chord, event)
    ensures CtrlShortcut(event, context) == Some(action)
  {
  }

  /** The ctrl chords for editing and nudging dispatch the action the table binds them to. */
  lemma BoundEditActionIsDispatched(event: KeyEvent, context: Context, action: Action, chord: Chord)
    requires action.Undo? || action.Redo? || action.Cut? || action.Copy? || action.Paste? || action.SelectAll? || action.NudgeSelection?
    requires chord in Chords(action, context) && Matches(chord, event)
    ensures CtrlShortcut(event, context) == Some(action)
  {
  }

  /** The ctrl chords for workbench and timeline zoom dispatch the action the table binds them to. */
  lemma BoundZoomActionIsDispatched(event: KeyEvent, context: Context, action: Action, chord: Chord)
    requires action.CenterWorkbench? || action.ZoomInTimeline? || action.ZoomInWorkbench? || action.ZoomOutTimeline? || action.ZoomOutWorkbench? || action.ResetTimelineZoom? || action.ResetWorkbenchZoom?
    requires chord in Chords(action, context) && Matches(chord, event)
    ensures CtrlShortcut(event, context) == Some(action)
  {
  }

  /**
   * A table chord with ctrl that matches the event names exactly the action
   * the ctrl branch dispatches.
   */
  lemma BoundCtrlActionIsDispatched(event: KeyEvent, context: Context, action: Action, chord: Chord)
    requires chord.ctrl && chord in Chords(action, context) && Matches(chord, event)
    ensures CtrlShortcut(event, context) == Some(action)
  {
    if action.NewDocument? || action.OpenDocuments? || action.SaveAll? || action.Save? || action.SaveAs? || action.DoExport? || action.BeginExportAs? || action.CloseCurrentDocument? || action.CloseAllDocuments? {
      BoundFileActionIsDispatched(event, context, action, chord);
    } else if action.Undo? || action.Redo? || action.Cut? || action.Copy? || action.Paste? || action.SelectAll? || action.NudgeSelection? {
      BoundEditActionIsDispatched(event, context, action, chord);
    } else {
      BoundZoomActionIsDispatched(event, context, action, chord);
    }
  }

  /**
   * A table chord without ctrl that matches the event names exactly the
   * action the plain branch dispatches.
   */
  lemma BoundPlainActionIsDispatched(event: KeyEvent, context: Context, action: Action, chord: Chord)
    requires !chord.ctrl && chord in Chords(action, context) && Matches(chord, event)
    ensures PlainShortcut(event, context) == Some(action)
  {
  }

  /**
   * A table chord that matches the event names exactly the action the
   * handler dispatches, so no chord is bound to two actions.
   */
  lemma BoundActionIsDispatched(event: KeyEvent, context: Context, action: Action, chord: Chord)
    requires !context.inputtingText && !context.inputTrapped
    requires chord in Chords(action, context) && Matches(chord, event)
    ensures OnKeyDown(event, context).action == Some(action)
  {
    if chord.ctrl {
      BoundCtrlActionIsDispatched(event, context, action, chord);
    } else {
      BoundPlainActionIsDispatched(event, context, action, chord);
    }
  }
}
