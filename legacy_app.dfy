/**
 * The list of open documents in the older engine's `App`: opening a path
 * that is already open only focuses it, focusing clears the document's
 * transient state, closing a document hands the focus to its neighbour, and
 * error messages wait in a queue until they are acknowledged.
 */
module LegacyApps {
  import opened Wrappers
  import Selections

  type Path = string

  /**
   * A document as the app sees it: its path, and whether its transient state
   * (a keyframe-duration drag in progress) differs from the default.
   */
  datatype OpenDocument = OpenDocument(path: Path, transientActive: bool)

  datatype AppError = NoDocumentOpen | DocumentNotFound(path: Path)

  function Paths(documents: seq<OpenDocument>): (r: seq<Path>)
    ensures |r| == |documents|
    ensures forall i :: 0 <= i < |documents| ==> r[i] == documents[i].path
  {
    seq(|documents|, i requires 0 <= i < |documents| => documents[i].path)
  }

  /** The index of the first document with `path`, as `iter().position` finds it. */
  function Find(documents: seq<OpenDocument>, path: Path): (r: Option<nat>)
    ensures r.None? <==> path !in Paths(documents)
    ensures r.Some? ==> r.value < |documents| && documents[r.value].path == path
    ensures r.Some? ==> forall j :: 0 <= j < r.value ==> documents[j].path != path
  {
    Selections.IndexOf(Paths(documents), path)
  }

  predicate UniquePaths(paths: seq<Path>) {
    forall i, j :: 0 <= i < j < |paths| ==> paths[i] != paths[j]
  }

  /** The sequence without its element at `index`, as `Vec::remove` leaves it. */
  function RemoveAt<T>(s: seq<T>, index: nat): (r: seq<T>)
    requires index < |s|
    ensures |r| == |s| - 1
    ensures forall k :: 0 <= k < index ==> r[k] == s[k]
    ensures forall k :: index <= k < |r| ==> r[k] == s[k + 1]
  {
    s[..index] + s[index + 1..]
  }

  /**
   * The path that receives the focus once the entry at `index` has been
   * removed, leaving `remaining`: the entry now at `index`, or the last one
   * when the removed entry was the last, or nothing when none is left.
   */
  function FocusAfterClose(remaining: seq<Path>, index: nat): (r: Option<Path>)
    ensures r.None? <==> remaining == []
    ensures r.Some? ==> r.value in remaining
  {
    if remaining == [] then None
    else Some(remaining[if index < |remaining| then index else |remaining| - 1])
  }

  /**
   * Closing hands the focus to a neighbour of the closed entry: the one that
   * followed it, or the one before it when it was the last.
   */
  lemma FocusGoesToNeighbour(paths: seq<Path>, index: nat)
    requires index < |paths|
    ensures index + 1 < |paths| ==> FocusAfterClose(RemoveAt(paths, index), index) == Some(paths[index + 1])
    ensures index + 1 == |paths| && index > 0 ==> FocusAfterClose(RemoveAt(paths, index), index) == Some(paths[index - 1])
    ensures |paths| == 1 ==> FocusAfterClose(RemoveAt(paths, index), index) == None
  {
  }

  /** Removing an entry keeps the others distinct and drops the removed one. */
  lemma RemoveKeepsUnique(paths: seq<Path>, index: nat)
    requires index < |paths| && UniquePaths(paths)
    ensures UniquePaths(RemoveAt(paths, index))
    ensures paths[index] !in RemoveAt(paths, index)
  {
    var r := RemoveAt(paths, index);
    forall i, j | 0 <= i < j < |r|
      ensures r[i] != r[j]
    {
      var i' := if i < index then i else i + 1;
      var j' := if j < index then j else j + 1;
      assert r[i] == paths[i'] && r[j] == paths[j'];
    }
    forall k | 0 <= k < |r|
      ensures r[k] != paths[index]
    {
      var k' := if k < index then k else k + 1;
      assert r[k] == paths[k'] && k' != index;
    }
  }

  /** `focus_document` on the list: the document at `path` gets default transient state. */
  function Focused(documents: seq<OpenDocument>, path: Path): (r: Result<seq<OpenDocument>, AppError>)
    ensures r.Err? <==> path !in Paths(documents)
    ensures r.Err? ==> r.error == DocumentNotFound(path)
    ensures r.Ok? ==> Paths(r.value) == Paths(documents)
    ensures r.Ok? ==> !r.value[Find(documents, path).value].transientActive
    ensures r.Ok? ==> forall i :: 0 <= i < |documents| && i != Find(documents, path).value ==> r.value[i] == documents[i]
  {
    match Find(documents, path)
    case None => Err(DocumentNotFound(path))
    case Some(i) => Ok(documents[i := documents[i].(transientActive := false)])
  }

  /** `open_document` on the list: append the document unless its path is open, then focus it. */
  function Opened(documents: seq<OpenDocument>, document: OpenDocument): (r: seq<OpenDocument>)
    ensures document.path in Paths(documents) ==> Paths(r) == Paths(documents)
    ensures document.path !in Paths(documents) ==> Paths(r) == Paths(documents) + [document.path]
    ensures document.path in Paths(r)
  {
    var present := document.path in Paths(documents);
    var listed := if present then documents else documents + [document];
    assert Paths(listed) == if present then Paths(documents) else Paths(documents) + [document.path];
    Focused(listed, document.path).value
  }

  /** Opening never lists a path twice, and opening the same document again changes nothing more. */
  lemma OpenKeepsPathsUnique(documents: seq<OpenDocument>, document: OpenDocument)
    requires UniquePaths(Paths(documents))
    ensures UniquePaths(Paths(Opened(documents, document)))
    ensures Opened(Opened(documents, document), document) == Opened(documents, document)
  {
    var once := Opened(documents, document);
    var i := Find(once, document.path).value;
    assert !once[i].transientActive;
    assert once[i := once[i].(transientActive := false)] == once;
  }

  /** `close_document` on the list and the focus; an unknown path changes neither. */
  function Closed(documents: seq<OpenDocument>, current: Option<Path>, path: Path): (r: (seq<OpenDocument>, Option<Path>))
    ensures path !in Paths(documents) ==> r == (documents, current)
    ensures path in Paths(documents) ==> r.0 == RemoveAt(documents, Find(documents, path).value)
    ensures path in Paths(documents) ==> r.1 == FocusAfterClose(Paths(r.0), Find(documents, path).value)
  {
    match Find(documents, path)
    case None => (documents, current)
    case Some(index) =>
      var remaining := RemoveAt(documents, index);
      (remaining, FocusAfterClose(Paths(remaining), index))
  }

  /**
   * Closing an open document removes its path from the list, keeps the paths
   * distinct, and leaves the focus on a document that is still open.
   */
  lemma CloseRemovesDocument(documents: seq<OpenDocument>, current: Option<Path>, path: Path)
    requires UniquePaths(Paths(documents)) && path in Paths(documents)
    ensures path !in Paths(Closed(documents, current, path).0)
    ensures UniquePaths(Paths(Closed(documents, current, path).0))
    ensures Closed(documents, current, path).1.Some? ==> Closed(documents, current, path).1.value in Paths(Closed(documents, current, path).0)
  {
    var index := Find(documents, path).value;
    assert Paths(RemoveAt(documents, index)) == RemoveAt(Paths(documents), index);
    RemoveKeepsUnique(Paths(documents), index);
  }

  /** Opening two documents and closing the second leaves the first one focused. */
  lemma OpenTwoCloseSecond(first: OpenDocument, second: OpenDocument)
    requires first.path != second.path
    ensures var both := Opened(Opened([], first), second);
            Closed(both, Some(second.path), second.path) == ([first.(transientActive := false)], Some(first.path))
  {
    var once := Opened([], first);
    assert once == [first.(transientActive := false)];
    var twice := Opened(once, second);
    assert Paths(twice) == [first.path, second.path];
    assert Find(twice, second.path) == Some(1);
    assert RemoveAt(twice, 1) == [twice[0]];
  }

  /** The queue after `acknowledge_error`: the oldest message leaves it. */
  function Acknowledged(errors: seq<string>): (r: seq<string>)
    ensures errors == [] ==> r == []
    ensures errors != [] ==> [errors[0]] + r == errors
  {
    if errors == [] then [] else errors[1..]
  }

  /** The queue after `count` acknowledgements. */
  function AcknowledgedTimes(errors: seq<string>, count: nat): seq<string>
    decreases count
  {
    if count == 0 then errors else AcknowledgedTimes(Acknowledged(errors), count - 1)
  }

  /**
   * The queue is first in, first out: after `count` acknowledgements exactly
   * the messages shown after the first `count` remain, in order.
   */
  lemma {:induction false} AcknowledgeInOrder(errors: seq<string>, count: nat)
    ensures count <= |errors| ==> AcknowledgedTimes(errors, count) == errors[count..]
    ensures count >= |errors| ==> AcknowledgedTimes(errors, count) == []
    decreases count
  {
    if count > 0 {
      AcknowledgeInOrder(Acknowledged(errors), count - 1);
      if errors != [] && count <= |errors| {
        assert Acknowledged(errors)[count - 1..] == errors[1..][count - 1..] == errors[count..];
      }
    }
  }

  /** A document list whose paths are distinct and whose focus, if any, is on one of them. */
  predicate ValidList(documents: seq<OpenDocument>, current: Option<Path>) {
    UniquePaths(Paths(documents)) && (current.Some? ==> current.value in Paths(documents))
  }

  /** The app: the open documents, the focused path and the error queue, updated in place. */
  class App {
    var documents: seq<OpenDocument>
    var currentDocument: Option<Path>
    var errors: seq<string>

    predicate Valid()
      reads this
    {
      ValidList(documents, currentDocument)
    }

    constructor()
      ensures documents == [] && currentDocument == None && errors == []
      ensures Valid()
    {
      documents := [];
      currentDocument := None;
      errors := [];
    }

    method OpenDocument(document: OpenDocument)
      modifies this
      ensures documents == Opened(old(documents), document)
      ensures currentDocument == Some(document.path)
      ensures errors == old(errors)
      ensures old(Valid()) ==> Valid()
    {
      if Find(documents, document.path).None? {
        documents := documents + [document];
        assert Paths(documents) == Paths(old(documents)) + [document.path];
      }
      var focused := FocusDocument(document.path);
      assert focused.Ok?;
      if old(Valid()) {
        OpenKeepsPathsUnique(old(documents), document);
      }
    }

    method FocusDocument(path: Path) returns (r: Result<(), AppError>)
      modifies this
      ensures r.Err? <==> Focused(old(documents), path).Err?
      ensures r.Err? ==> r.error == DocumentNotFound(path)
      ensures r.Ok? ==> documents == Focused(old(documents), path).value && currentDocument == Some(path)
      ensures r.Err? ==> documents == old(documents) && currentDocument == old(currentDocument)
      ensures errors == old(errors)
    {
      var index := Find(documents, path);
      if index.None? {
        return Err(DocumentNotFound(path));
      }
      documents := documents[index.value := documents[index.value].(transientActive := false)];
      currentDocument := Some(path);
      r := Ok(());
    }

    /** `current_document`: the focused document, if the focused path is still open. */
    function CurrentDocument(): (r: Option<OpenDocument>)
      reads this
      ensures currentDocument.None? ==> r.None?
      ensures currentDocument.Some? && currentDocument.value !in Paths(documents) ==> r.None?
      ensures r.Some? ==> r.value in documents && currentDocument == Some(r.value.path)
      ensures Valid() && currentDocument.Some? ==> r.Some?
    {
      match currentDocument
      case None => None
      case Some(path) =>
        match Find(documents, path)
        case None => None
        case Some(index) => Some(documents[index])
    }

    method CloseDocument(path: Path)
      modifies this
      ensures (documents, currentDocument) == Closed(old(documents), old(currentDocument), path)
      ensures errors == old(errors)
      ensures old(Valid()) ==> Valid()
    {
      var index := Find(documents, path);
      if index.Some? {
        documents := RemoveAt(documents, index.value);
        currentDocument := FocusAfterClose(Paths(documents), index.value);
        if old(Valid()) {
          CloseRemovesDocument(old(documents), old(currentDocument), path);
        }
      }
    }

    method ShowErrorMessage(message: string)
      modifies this
      ensures errors == old(errors) + [message]
      ensures documents == old(documents) && currentDocument == old(currentDocument)
    {
      errors := errors + [message];
    }

    method AcknowledgeError()
      modifies this
      ensures errors == Acknowledged(old(errors))
      ensures documents == old(documents) && currentDocument == old(currentDocument)
    {
      if errors != [] {
        errors := errors[1..];
      }
    }
  }
}
