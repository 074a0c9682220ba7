/**
 * The summary of the application the back end sends to the front end: the
 * open documents in order, each with its path, a display name and its frame
 * sources, and the path of the focused document.
 */
module Dtos {
  import opened Wrappers
  import opened Sheets
  import Paths
  import TextureLists

  datatype SheetDto = SheetDto(frames: seq<Path>)

  datatype DocumentDto = DocumentDto(path: Path, name: string, sheet: SheetDto)

  datatype AppDto = AppDto(documents: seq<DocumentDto>, currentDocumentPath: Option<Path>)

  /** An open document: its path and its sheet. */
  datatype OpenDocument = OpenDocument(path: Path, sheet: Sheet)

  /** `From<&sheet::Sheet>`: the frame sources, in order. */
  function SheetToDto(sheet: Sheet): (r: SheetDto)
    ensures |r.frames| == |sheet.frames|
    ensures forall i :: 0 <= i < |sheet.frames| ==> r.frames[i] == sheet.frames[i].source
  {
    SheetDto(Sources(sheet.frames))
  }

  /** The front end sees exactly the textures the sheet lists. */
  lemma SheetDtoListsTextures(sheet: Sheet)
    ensures forall p :: p in SheetToDto(sheet).frames <==> p in TextureLists.SheetTextures(sheet)
  {
  }

  /** The display name of a document: its path's file name, or "??" when the path has none. */
  function DocumentName(path: Path): (r: string)
    ensures r != ""
    ensures Paths.FileName(path).Some? ==> r == Paths.FileName(path).value
    ensures Paths.FileName(path).None? ==> r == "??"
  {
    match Paths.FileName(path)
    case Some(name) => name
    case None => "??"
  }

  /** A document saved as `name` in `directory` is shown as `name`. */
  lemma DocumentNameOfJoin(directory: Path, name: string)
    requires Paths.IsDirectory(directory) && Paths.IsFileName(name)
    ensures DocumentName(Paths.Join(directory, name)) == name
  {
    Paths.JoinSplits(directory, name);
  }

  /** The root directory has no file name. */
  lemma RootHasNoName()
    ensures DocumentName("/") == "??"
  {
    assert Paths.LastSlash("/") == Some(0);
    assert "/"[1..] == "";
  }

  /** `From<&state::Document>`. */
  function DocumentToDto(document: OpenDocument): (r: DocumentDto)
    ensures r.path == document.path && r.name == DocumentName(document.path)
    ensures r.sheet == SheetToDto(document.sheet)
  {
    DocumentDto(document.path, DocumentName(document.path), SheetToDto(document.sheet))
  }

  function DocumentsToDto(documents: seq<OpenDocument>): (r: seq<DocumentDto>)
    ensures |r| == |documents|
    ensures forall i :: 0 <= i < |documents| ==> r[i] == DocumentToDto(documents[i])
  {
    if documents == [] then [] else [DocumentToDto(documents[0])] + DocumentsToDto(documents[1..])
  }

  /**
   * `From<&state::App>`: the documents in the app's order; the current path
   * is reported only when it names an open document.
   */
  function AppToDto(documents: seq<OpenDocument>, current: Option<Path>): (r: AppDto)
    ensures |r.documents| == |documents|
    ensures forall i :: 0 <= i < |documents| ==> r.documents[i].path == documents[i].path
    ensures r.currentDocumentPath.Some? <==> current.Some? && exists i :: 0 <= i < |documents| && documents[i].path == current.value
    ensures r.currentDocumentPath.Some? ==> r.currentDocumentPath == current
  {
    var open := current.Some? && exists i :: 0 <= i < |documents| && documents[i].path == current.value;
    AppDto(DocumentsToDto(documents), if open then current else None)
  }
}
