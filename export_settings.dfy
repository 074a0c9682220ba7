/**
 * Editing a sheet's export settings in a dialog: the document holds a copy
 * of the settings while the dialog is open, the setters change that copy,
 * validation reports a problem per path, and ending the edit writes the
 * copy back to the sheet.
 *
 * What exists on disk, and whether a template file parses, is given as a
 * `FileSystem` value.
 */
module ExportEditing {
  import opened Wrappers
  import opened Sheets
  import opened Paths
  import opened Documents

  /** What the validators may ask of the disk. */
  datatype FileSystem = FileSystem(
    directories: set<Path>,
    files: set<Path>,
    /** The error `Template::new` reports for a template file that does not parse. */
    templateErrors: map<Path, string>)

  predicate IsDir(fs: FileSystem, p: Path) { p in fs.directories }
  predicate IsFile(fs: FileSystem, p: Path) { p in fs.files }
  predicate Exists(fs: FileSystem, p: Path) { p in fs.directories || p in fs.files }

  datatype ExportSettingsError =
    | ExpectedAbsolutePath
    | ExpectedDirectory
    | ExpectedFile
    | FileNotFound
    | TemplateError(message: string)

  datatype TemplateExportSettingsValidation = TemplateExportSettingsValidation(
    templateFileError: Option<ExportSettingsError>,
    textureFileError: Option<ExportSettingsError>,
    metadataFileError: Option<ExportSettingsError>,
    metadataPathsRootError: Option<ExportSettingsError>)

  // ----- Validators -----

  /**
   * `validate_template_path`: the template must be an absolute path to an
   * existing file that parses as a template; the first failed check names
   * the problem.
   */
  function ValidateTemplatePath(fs: FileSystem, p: Path): (r: Option<ExportSettingsError>)
    ensures r.None? <==> IsAbsolute(p) && !IsDir(fs, p) && Exists(fs, p) && p !in fs.templateErrors
    ensures r == Some(ExpectedAbsolutePath) <==> !IsAbsolute(p)
    ensures r == Some(ExpectedFile) <==> IsAbsolute(p) && IsDir(fs, p)
    ensures r == Some(FileNotFound) <==> IsAbsolute(p) && !IsDir(fs, p) && !Exists(fs, p)
    ensures r.Some? && r.value.TemplateError? <==>
      IsAbsolute(p) && !IsDir(fs, p) && Exists(fs, p) && p in fs.templateErrors
  {
    if !IsAbsolute(p) then Some(ExpectedAbsolutePath)
    else if IsDir(fs, p) then Some(ExpectedFile)
    else if !Exists(fs, p) then Some(FileNotFound)
    else if p in fs.templateErrors then Some(TemplateError(fs.templateErrors[p]))
    else None
  }

  /** `validate_output_file_path`: an output file must be absolute and not a directory. */
  function ValidateOutputFilePath(fs: FileSystem, p: Path): (r: Option<ExportSettingsError>)
    ensures r.None? <==> IsAbsolute(p) && !IsDir(fs, p)
    ensures r == Some(ExpectedAbsolutePath) <==> !IsAbsolute(p)
    ensures r == Some(ExpectedFile) <==> IsAbsolute(p) && IsDir(fs, p)
  {
    if !IsAbsolute(p) then Some(ExpectedAbsolutePath)
    else if IsDir(fs, p) then Some(ExpectedFile)
    else None
  }

  /** `validate_output_directory_path`: an output directory must be absolute and not a file. */
  function ValidateOutputDirectoryPath(fs: FileSystem, p: Path): (r: Option<ExportSettingsError>)
    ensures r.None? <==> IsAbsolute(p) && !IsFile(fs, p)
    ensures r == Some(ExpectedAbsolutePath) <==> !IsAbsolute(p)
    ensures r == Some(ExpectedDirectory) <==> IsAbsolute(p) && IsFile(fs, p)
  {
    if !IsAbsolute(p) then Some(ExpectedAbsolutePath)
    else if IsFile(fs, p) then Some(ExpectedDirectory)
    else None
  }

  /** `Document::validate_template_export_settings`: one verdict per path. */
  function ValidateTemplateExportSettings(fs: FileSystem, s: LiquidExportSettings): (r: TemplateExportSettingsValidation)
    ensures r.templateFileError == ValidateTemplatePath(fs, s.templateFile)
    ensures r.textureFileError == ValidateOutputFilePath(fs, s.textureFile)
    ensures r.metadataFileError == ValidateOutputFilePath(fs, s.metadataFile)
    ensures r.metadataPathsRootError == ValidateOutputDirectoryPath(fs, s.metadataPathsRoot)
  {
    TemplateExportSettingsValidation(
      ValidateTemplatePath(fs, s.templateFile),
      ValidateOutputFilePath(fs, s.textureFile),
      ValidateOutputFilePath(fs, s.metadataFile),
      ValidateOutputDirectoryPath(fs, s.metadataPathsRoot))
  }

  /** Every path of the settings starts at the root. */
  predicate AllAbsolute(s: LiquidExportSettings) {
    IsAbsolute(s.templateFile) && IsAbsolute(s.textureFile) && IsAbsolute(s.metadataFile) && IsAbsolute(s.metadataPathsRoot)
  }

  /** Settings that pass validation have only absolute paths. */
  lemma ValidSettingsAreAbsolute(fs: FileSystem, s: LiquidExportSettings)
    requires ValidateTemplateExportSettings(fs, s) == TemplateExportSettingsValidation(None, None, None, None)
    ensures AllAbsolute(s)
  {
  }

  /** `Document::validate_export_settings`: validate the edited copy; fails outside the dialog. */
  function ValidateExportSettings(fs: FileSystem, p: Persistent): (r: Result<TemplateExportSettingsValidation, DocumentError>)
    ensures p.exportSettingsEdit.None? <==> r == Err(NotEditingExportSettings)
    ensures p.exportSettingsEdit.Some? ==> r == Ok(ValidateTemplateExportSettings(fs, p.exportSettingsEdit.value.settings))
  {
    match p.exportSettingsEdit
    case None => Err(NotEditingExportSettings)
    case Some(Liquid(s)) => Ok(ValidateTemplateExportSettings(fs, s))
  }

  // ----- The editing session -----

  /** `Document::export_settings_edit`: the copy being edited. */
  function ExportSettingsEdit(p: Persistent): (r: Result<ExportSettings, DocumentError>)
    ensures r.Err? <==> p.exportSettingsEdit.None?
    ensures r.Err? ==> r.error == NotEditingExportSettings
    ensures r.Ok? ==> p.exportSettingsEdit == Some(r.value)
  {
    match p.exportSettingsEdit
    case None => Err(NotEditingExportSettings)
    case Some(s) => Ok(s)
  }

  /** `Document::begin_export_as`: edit a copy of the sheet's settings, or of the defaults when it has none. */
  function BeganExportAs(sheet: Sheet, p: Persistent): (r: Persistent)
    ensures r.exportSettingsEdit.Some?
    ensures sheet.exportSettings.Some? ==> r.exportSettingsEdit == sheet.exportSettings
    ensures sheet.exportSettings.None? ==> r.exportSettingsEdit == Some(DefaultExportSettings)
    ensures r.(exportSettingsEdit := p.exportSettingsEdit) == p
  {
    p.(exportSettingsEdit := Some(sheet.exportSettings.UnwrapOr(DefaultExportSettings)))
  }

  /** Which path a setter changes. */
  datatype ExportPath = TemplateFile | TextureFile | MetadataFile | MetadataPathsRoot

  /** The settings with one path replaced. */
  function WithPath(s: LiquidExportSettings, which: ExportPath, path: Path): (r: LiquidExportSettings)
    ensures which == TemplateFile ==> r == s.(templateFile := path)
    ensures which == TextureFile ==> r == s.(textureFile := path)
    ensures which == MetadataFile ==> r == s.(metadataFile := path)
    ensures which == MetadataPathsRoot ==> r == s.(metadataPathsRoot := path)
  {
    match which
    case TemplateFile => s.(templateFile := path)
    case TextureFile => s.(textureFile := path)
    case MetadataFile => s.(metadataFile := path)
    case MetadataPathsRoot => s.(metadataPathsRoot := path)
  }

  /**
   * `set_export_template_file`, `set_export_texture_file`,
   * `set_export_metadata_file` and `set_export_metadata_paths_root`: change
   * one path of the copy; outside the dialog they fail and change nothing.
   */
  function SetExportPath(p: Persistent, which: ExportPath, path: Path): (r: Result<Persistent, DocumentError>)
    ensures p.exportSettingsEdit.None? <==> r == Err(NotEditingExportSettings)
    ensures r.Ok? ==> r.value == p.(exportSettingsEdit := Some(Liquid(WithPath(p.exportSettingsEdit.value.settings, which, path))))
  {
    match p.exportSettingsEdit
    case None => Err(NotEditingExportSettings)
    case Some(Liquid(s)) => Ok(p.(exportSettingsEdit := Some(Liquid(WithPath(s, which, path)))))
  }

  /**
   * Setting a path changes the verdict on that path only: the new verdict
   * is the validator's verdict on the new path, and the other three stay.
   */
  lemma SetPathRevalidates(fs: FileSystem, p: Persistent, which: ExportPath, path: Path)
    requires p.exportSettingsEdit.Some?
    ensures var before := ValidateExportSettings(fs, p).value;
      var after := ValidateExportSettings(fs, SetExportPath(p, which, path).value).value;
      && (which == TemplateFile ==> after == before.(templateFileError := ValidateTemplatePath(fs, path)))
      && (which == TextureFile ==> after == before.(textureFileError := ValidateOutputFilePath(fs, path)))
      && (which == MetadataFile ==> after == before.(metadataFileError := ValidateOutputFilePath(fs, path)))
      && (which == MetadataPathsRoot ==> after == before.(metadataPathsRootError := ValidateOutputDirectoryPath(fs, path)))
  {
  }

  /**
   * `ExportSettings::with_absolute_paths` as `end_export_as` uses it: the
   * settings unchanged when every path is absolute, an error naming the
   * first relative path otherwise.
   */
  function WithAbsolutePaths(e: ExportSettings): (r: Result<ExportSettings, SheetError>)
    ensures r.Ok? <==> AllAbsolute(e.settings)
    ensures r.Ok? ==> r.value == e
    ensures r.Err? ==> r.error.RelativePath? && !IsAbsolute(r.error.path)
  {
    var s := e.settings;
    if !IsAbsolute(s.templateFile) then Err(RelativePath(s.templateFile))
    else if !IsAbsolute(s.textureFile) then Err(RelativePath(s.textureFile))
    else if !IsAbsolute(s.metadataFile) then Err(RelativePath(s.metadataFile))
    else if !IsAbsolute(s.metadataPathsRoot) then Err(RelativePath(s.metadataPathsRoot))
    else Ok(e)
  }

  /**
   * `Document::end_export_as`: store the edited copy in the sheet and close
   * the dialog. Fails, changing nothing, outside the dialog or while a path
   * of the copy is relative.
   */
  function EndedExportAs(sheet: Sheet, p: Persistent): (r: Result<(Sheet, Persistent), DocumentError>)
    ensures p.exportSettingsEdit.None? ==> r == Err(NotEditingExportSettings)
    ensures p.exportSettingsEdit.Some? ==>
      (r.Ok? <==> AllAbsolute(p.exportSettingsEdit.value.settings))
    ensures r.Ok? ==> r.value == (sheet.(exportSettings := p.exportSettingsEdit), p.(exportSettingsEdit := None))
  {
    match p.exportSettingsEdit
    case None => Err(NotEditingExportSettings)
    case Some(edit) =>
      match WithAbsolutePaths(edit)
      case Err(e) => Err(SheetFailure(e))
      case Ok(settings) => Ok((sheet.(exportSettings := Some(settings)), p.(exportSettingsEdit := None)))
  }

  /**
   * Opening the dialog and confirming it at once leaves a sheet whose
   * settings are absolute as it was, and closes the dialog.
   */
  lemma BeginThenEndKeepsSettings(sheet: Sheet, p: Persistent)
    requires sheet.exportSettings.Some? && AllAbsolute(sheet.exportSettings.value.settings)
    ensures EndedExportAs(sheet, BeganExportAs(sheet, p)) == Ok((sheet, p.(exportSettingsEdit := None)))
  {
  }

  /** A document without export settings cannot confirm the dialog untouched: the default paths are empty, hence relative. */
  lemma DefaultsCannotBeConfirmed(sheet: Sheet, p: Persistent)
    requires sheet.exportSettings.None?
    ensures EndedExportAs(sheet, BeganExportAs(sheet, p)) == Err(SheetFailure(RelativePath("")))
  {
  }

  // ----- The document methods -----

  /** `Document::begin_export_as`. */
  method BeginExportAs(doc: Document)
    modifies doc
    ensures doc.persistent == BeganExportAs(old(doc.sheet), old(doc.persistent))
    ensures doc.sheet == old(doc.sheet) && doc.view == old(doc.view)
    ensures doc.transient == old(doc.transient) && doc.KeepsHistory()
  {
    doc.persistent := BeganExportAs(doc.sheet, doc.persistent);
  }

  /** `Document::cancel_export_as`: close the dialog, dropping the copy. */
  method CancelExportAs(doc: Document)
    modifies doc
    ensures doc.persistent == old(doc.persistent).(exportSettingsEdit := None)
    ensures ExportSettingsEdit(doc.persistent) == Err(NotEditingExportSettings)
    ensures doc.sheet == old(doc.sheet) && doc.view == old(doc.view)
    ensures doc.transient == old(doc.transient) && doc.KeepsHistory()
  {
    doc.persistent := doc.persistent.(exportSettingsEdit := None);
  }

  /** The four `Document::set_export_*` setters. */
  method SetExportPathOf(doc: Document, which: ExportPath, path: Path) returns (r: Result<(), DocumentError>)
    modifies doc
    ensures var s := SetExportPath(old(doc.persistent), which, path);
      && (s.Err? ==> r == Err(s.error) && doc.persistent == old(doc.persistent))
      && (s.Ok? ==> r == Ok(()) && doc.persistent == s.value)
    ensures doc.sheet == old(doc.sheet) && doc.view == old(doc.view)
    ensures doc.transient == old(doc.transient) && doc.KeepsHistory()
  {
    var s := SetExportPath(doc.persistent, which, path);
    if s.Err? {
      return Err(s.error);
    }
    doc.persistent := s.value;
    r := Ok(());
  }

  /** `Document::end_export_as`. */
  method EndExportAs(doc: Document) returns (r: Result<(), DocumentError>)
    modifies doc
    ensures var e := EndedExportAs(old(doc.sheet), old(doc.persistent));
      && (e.Err? ==> r == Err(e.error) && doc.sheet == old(doc.sheet) && doc.persistent == old(doc.persistent))
      && (e.Ok? ==> r == Ok(()) && doc.sheet == e.value.0 && doc.persistent == e.value.1)
    ensures doc.view == old(doc.view) && doc.transient == old(doc.transient) && doc.KeepsHistory()
  {
    var e := EndedExportAs(doc.sheet, doc.persistent);
    if e.Err? {
      return Err(e.error);
    }
    doc.sheet, doc.persistent := e.value.0, e.value.1;
    r := Ok(());
  }
}
