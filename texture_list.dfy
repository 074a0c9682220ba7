/**
 * The textures a sheet, a document or the whole application refers to: the
 * sources of the frame lists, gathered into sets. Keyframes are not looked
 * at, only the frame lists.
 */
module TextureLists {
  import opened Sheets

  /** `Sheet::list_textures`: the set of frame sources. */
  function SheetTextures(sheet: Sheet): (r: set<Path>)
    ensures forall p :: p in r <==> HasFrame(sheet, p)
  {
    var r := set f | f in sheet.frames :: f.source;
    forall p | HasFrame(sheet, p)
      ensures p in r
    {
      var i :| 0 <= i < |sheet.frames| && Sources(sheet.frames)[i] == p;
      assert sheet.frames[i] in sheet.frames;
    }
    forall p | p in r
      ensures HasFrame(sheet, p)
    {
      var i :| 0 <= i < |sheet.frames| && sheet.frames[i].source == p;
      assert Sources(sheet.frames)[i] == p;
    }
    r
  }

  /** `App::list_textures` (a document lists its sheet's textures): the union over every open document. */
  function AppTextures(sheets: seq<Sheet>): (r: set<Path>)
    ensures forall p :: p in r <==> exists i :: 0 <= i < |sheets| && HasFrame(sheets[i], p)
  {
    if sheets == [] then {}
    else
      var rest := AppTextures(sheets[..|sheets| - 1]);
      var last := SheetTextures(sheets[|sheets| - 1]);
      assert forall i :: 0 <= i < |sheets| - 1 ==> sheets[..|sheets| - 1][i] == sheets[i];
      rest + last
  }

  /** Adding a frame adds its source to the textures and nothing else. */
  lemma AddFrameTextures(sheet: Sheet, path: Path)
    ensures SheetTextures(AddFrame(sheet, path)) == SheetTextures(sheet) + {path}
  {
    AddFrameGrows(sheet, path);
    var before := SheetTextures(sheet);
    var after := SheetTextures(AddFrame(sheet, path));
    forall p | p in after
      ensures p in before + {path}
    {
      if p != path {
        var next := AddFrame(sheet, path);
        var i :| 0 <= i < |next.frames| && Sources(next.frames)[i] == p;
        assert i < |sheet.frames|;
        assert Sources(sheet.frames)[i] == p;
      }
    }
  }

  /** Deleting a frame removes its source from the textures and nothing else. */
  lemma DeleteFrameTextures(sheet: Sheet, path: Path)
    ensures SheetTextures(DeleteFrame(sheet, path)) == SheetTextures(sheet) - {path}
  {
    var r := DeleteFrame(sheet, path);
    forall p
      ensures HasFrame(r, p) <==> HasFrame(sheet, p) && p != path
    {
      HasFrameListed(r, p);
      HasFrameListed(sheet, p);
    }
  }

  /** A sheet has a frame with source `p` exactly when one of its listed frames has that source. */
  lemma HasFrameListed(sheet: Sheet, p: Path)
    ensures HasFrame(sheet, p) <==> exists f :: f in sheet.frames && f.source == p
  {
    if HasFrame(sheet, p) {
      var i :| 0 <= i < |sheet.frames| && Sources(sheet.frames)[i] == p;
      assert sheet.frames[i] in sheet.frames;
    }
    if f :| f in sheet.frames && f.source == p {
      var i :| 0 <= i < |sheet.frames| && sheet.frames[i] == f;
      assert Sources(sheet.frames)[i] == p;
    }
  }
}
