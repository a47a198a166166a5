/**
 * The local-filesystem study storage service: the Program -> Study -> Assay
 * hierarchy laid out as directories under a storage root, how a folder is
 * resolved, created under the conflict policy, and how a file is ingested.
 *
 * Everything here is a function of the configuration and of the filesystem
 * as it is at the time of the call; `StorageService` holds the mutable state
 * and applies these functions to it.
 */
module Storage {
  import opened Wrappers
  import opened FileSystem
  import opened ObjectUrls

  // ----- Inputs ---------------------------------------------------------------

  /** The identifying fields of the domain entities that the storage layer reads. */
  datatype Program = Program(code: string, name: string)
  datatype Study = Study(code: string, name: string, program: Program)
  datatype Assay = Assay(code: string, name: string, study: Study)

  /**
   * The `StorageUtils` folder-naming helpers, which are not part of this model:
   * any functions, each giving one path segment; no format is assumed.
   */
  datatype Naming = Naming(
    programFolderName: Program -> string,
    studyFolderName: Study -> string,
    assayFolderName: Assay -> string)

  /** The fixed configuration: the storage root and the folder-naming helpers. */
  datatype Config = Config(rootPath: Path, naming: Naming)

  /** The two creation-conflict flags. */
  datatype Policy = Policy(useExisting: bool, overwriteExisting: bool)

  // ----- Outputs --------------------------------------------------------------

  /** A file descriptor; `name` is `None` where the service leaves it unset. */
  datatype StorageFile = StorageFile(name: Option<string>, path: Path, url: string)

  /**
   * A folder descriptor. `files` and `subFolders` are `None` where the service
   * does not list the folder (created folders, entries of a listing).
   * Listings are sets: the order of a directory walk is not modelled.
   */
  datatype StorageFolder = StorageFolder(
    name: string,
    path: Path,
    url: string,
    files: Option<set<StorageFile>>,
    subFolders: Option<set<StorageFolder>>)

  datatype Level = ProgramLevel | StudyLevel | AssayLevel

  datatype FsAction = Creating | Deleting

  /**
   * The service's error taxonomy: `StudyStorageNotFoundException` (carrying the
   * missing entity's identifier), `StudyStorageDuplicateException`,
   * `StudyStorageWriteException` (a failed create or delete, naming the folder),
   * and the generic `StudyTrackerException` raised when a copy fails.
   */
  datatype StorageError =
    | NotFound(id: string)
    | Duplicate(level: Level, path: Path)
    | WriteError(level: Level, action: FsAction, path: Path)
    | CopyFailed

  /** The result of an operation together with the filesystem it leaves behind. */
  datatype Outcome<T> = Outcome(result: Result<T, StorageError>, fs: FileTree)

  // ----- Paths of the hierarchy -----------------------------------------------

  function ProgramPath(cfg: Config, program: Program): Path
  {
    Child(cfg.rootPath, cfg.naming.programFolderName(program))
  }

  function StudyPath(cfg: Config, study: Study): Path
  {
    Child(ProgramPath(cfg, study.program), cfg.naming.studyFolderName(study))
  }

  function AssayPath(cfg: Config, assay: Assay): Path
  {
    Child(StudyPath(cfg, assay.study), cfg.naming.assayFolderName(assay))
  }

  // ----- Descriptors ----------------------------------------------------------

  /** The descriptor of a listed file. */
  function FileEntry(cfg: Config, p: Path): StorageFile
  {
    StorageFile(Some(BaseName(p)), p, ObjectUrl(cfg.rootPath, p))
  }

  /** A folder descriptor without listings: name, path and URL only. */
  function ShallowFolder(cfg: Config, p: Path): StorageFolder
  {
    StorageFolder(BaseName(p), p, ObjectUrl(cfg.rootPath, p), None, None)
  }

  /** `getFolderFiles`: the regular files directly inside `p`. */
  function FolderFiles(cfg: Config, fs: FileTree, p: Path): (r: set<StorageFile>)
    ensures forall f :: f in r <==> IsRegularFile(fs, f.path) && IsChild(f.path, p) && f == FileEntry(cfg, f.path)
  {
    set q | q in fs && IsChild(q, p) && fs[q].File? :: FileEntry(cfg, q)
  }

  /**
   * `getSubfolders`: the directories met by a walk of depth one from `p`,
   * which starts with `p` itself.
   */
  function Subfolders(cfg: Config, fs: FileTree, p: Path): (r: set<StorageFolder>)
    ensures forall d :: d in r <==>
      IsDirectory(fs, d.path) && (d.path == p || IsChild(d.path, p)) && d == ShallowFolder(cfg, d.path)
  {
    set q | q in fs && (q == p || IsChild(q, p)) && fs[q].Dir? :: ShallowFolder(cfg, q)
  }

  /** The fully listed descriptor of an existing folder. */
  function Describe(cfg: Config, fs: FileTree, p: Path): StorageFolder
  {
    StorageFolder(BaseName(p), p, ObjectUrl(cfg.rootPath, p), Some(FolderFiles(cfg, fs, p)), Some(Subfolders(cfg, fs, p)))
  }

  // ----- Resolution (get*Folder) ----------------------------------------------

  /** One level of resolution: `p` must be an existing directory, else `missing` is reported. */
  function ResolveFolder(cfg: Config, fs: FileTree, p: Path, missing: string): (r: Result<StorageFolder, StorageError>)
    ensures r.Ok? <==> IsDirectory(fs, p)
    ensures r.Ok? ==> r.value.path == p && r.value.url == ObjectUrl(cfg.rootPath, p)
    ensures r.Err? ==> r.error == NotFound(missing)
  {
    if IsDirectory(fs, p) then Ok(Describe(cfg, fs, p)) else Err(NotFound(missing))
  }

  /** `getProgramFolder`: a missing program folder is reported by the program's name. */
  function GetProgramFolder(cfg: Config, fs: FileTree, program: Program): (r: Result<StorageFolder, StorageError>)
    ensures r.Ok? <==> IsDirectory(fs, ProgramPath(cfg, program))
    ensures r.Ok? ==> r.value == Describe(cfg, fs, ProgramPath(cfg, program))
    ensures r.Err? ==> r.error == NotFound(program.name)
  {
    ResolveFolder(cfg, fs, ProgramPath(cfg, program), program.name)
  }

  /** `getStudyFolder`: resolves the program first, then the study, reported by its code. */
  function GetStudyFolder(cfg: Config, fs: FileTree, study: Study): (r: Result<StorageFolder, StorageError>)
    ensures r.Ok? <==> IsDirectory(fs, ProgramPath(cfg, study.program)) && IsDirectory(fs, StudyPath(cfg, study))
    ensures !IsDirectory(fs, ProgramPath(cfg, study.program)) ==> r == Err(NotFound(study.program.name))
    ensures IsDirectory(fs, ProgramPath(cfg, study.program)) && !IsDirectory(fs, StudyPath(cfg, study))
            ==> r == Err(NotFound(study.code))
    ensures r.Ok? ==> r.value == Describe(cfg, fs, StudyPath(cfg, study))
  {
    match GetProgramFolder(cfg, fs, study.program)
    case Err(e) => Err(e)
    case Ok(programFolder) =>
      ResolveFolder(cfg, fs, Child(programFolder.path, cfg.naming.studyFolderName(study)), study.code)
  }

  /** `getAssayFolder`: resolves the study (and so the program) first, then the assay, reported by its code. */
  function GetAssayFolder(cfg: Config, fs: FileTree, assay: Assay): (r: Result<StorageFolder, StorageError>)
    ensures r.Ok? <==>
      IsDirectory(fs, ProgramPath(cfg, assay.study.program)) && IsDirectory(fs, StudyPath(cfg, assay.study))
      && IsDirectory(fs, AssayPath(cfg, assay))
    ensures !IsDirectory(fs, ProgramPath(cfg, assay.study.program)) ==> r == Err(NotFound(assay.study.program.name))
    ensures IsDirectory(fs, ProgramPath(cfg, assay.study.program)) && !IsDirectory(fs, StudyPath(cfg, assay.study))
            ==> r == Err(NotFound(assay.study.code))
    ensures IsDirectory(fs, StudyPath(cfg, assay.study)) && IsDirectory(fs, ProgramPath(cfg, assay.study.program))
            && !IsDirectory(fs, AssayPath(cfg, assay))
            ==> r == Err(NotFound(assay.code))
    ensures r.Ok? ==> r.value == Describe(cfg, fs, AssayPath(cfg, assay))
  {
    match GetStudyFolder(cfg, fs, assay.study)
    case Err(e) => Err(e)
    case Ok(studyFolder) =>
      ResolveFolder(cfg, fs, Child(studyFolder.path, cfg.naming.assayFolderName(assay)), assay.code)
  }

  // ----- Creation (create*Folder) ---------------------------------------------

  /**
   * Creating the folder `target` under the conflict policy. An existing node
   * (a directory or a file) is reused, deleted without being recreated, or
   * reported as a duplicate; an absent one is made by one `mkdir`. Success
   * returns a descriptor without listings.
   */
  function FolderCreationAt(cfg: Config, fs: FileTree, policy: Policy, level: Level, target: Path, osPermits: bool)
    : (o: Outcome<StorageFolder>)
    ensures o.result.Ok? ==> o.result.value == ShallowFolder(cfg, target)
    ensures o.result.Err? ==> o.fs == fs
    ensures target in fs && policy.useExisting ==> o == Outcome(Ok(ShallowFolder(cfg, target)), fs)
    ensures target in fs && !policy.useExisting && !policy.overwriteExisting
            ==> o.result == Err(Duplicate(level, target))
    ensures target in fs && !policy.useExisting && policy.overwriteExisting
            ==> (o.result.Ok? <==> osPermits && target != [] && (fs[target].File? || !HasChildren(fs, target)))
                && (o.result.Ok? ==> o.fs == fs - {target})
                && (o.result.Err? ==> o.result.error == WriteError(level, Deleting, target))
    ensures target !in fs
            ==> (o.result.Ok? <==> osPermits && target != [] && IsDirectory(fs, Parent(target)))
                && (o.result.Ok? ==> o.fs.Keys == fs.Keys + {target} && IsDirectory(o.fs, target)
                                     && forall q :: q in fs ==> o.fs[q] == fs[q])
                && (o.result.Err? ==> o.result.error == WriteError(level, Creating, target))
  {
    if target in fs then
      if policy.useExisting then Outcome(Ok(ShallowFolder(cfg, target)), fs)
      else if policy.overwriteExisting then
        match Delete(fs, target, osPermits)
        case None => Outcome(Err(WriteError(level, Deleting, target)), fs)
        case Some(after) => Outcome(Ok(ShallowFolder(cfg, target)), after)
      else Outcome(Err(Duplicate(level, target)), fs)
    else
      match Mkdir(fs, target, osPermits)
      case None => Outcome(Err(WriteError(level, Creating, target)), fs)
      case Some(after) => Outcome(Ok(ShallowFolder(cfg, target)), after)
  }

  /** `createProgramFolder`: the program folder sits directly under the root. */
  function ProgramFolderCreation(cfg: Config, fs: FileTree, policy: Policy, program: Program, osPermits: bool)
    : (o: Outcome<StorageFolder>)
    ensures o.result.Ok? ==> o.result.value == ShallowFolder(cfg, ProgramPath(cfg, program))
    ensures o.result.Err? ==> o.fs == fs
    ensures ProgramPath(cfg, program) !in fs && o.result.Ok? ==> IsDirectory(o.fs, ProgramPath(cfg, program))
  {
    FolderCreationAt(cfg, fs, policy, ProgramLevel, ProgramPath(cfg, program), osPermits)
  }

  /** `createStudyFolder`: the program folder must resolve; it is never created here. */
  function StudyFolderCreation(cfg: Config, fs: FileTree, policy: Policy, study: Study, osPermits: bool)
    : (o: Outcome<StorageFolder>)
    ensures !IsDirectory(fs, ProgramPath(cfg, study.program)) ==> o == Outcome(Err(NotFound(study.program.name)), fs)
    ensures IsDirectory(fs, ProgramPath(cfg, study.program))
            ==> o == FolderCreationAt(cfg, fs, policy, StudyLevel, StudyPath(cfg, study), osPermits)
    ensures o.result.Ok? ==> o.result.value == ShallowFolder(cfg, StudyPath(cfg, study))
    ensures o.result.Err? ==> o.fs == fs
  {
    match GetProgramFolder(cfg, fs, study.program)
    case Err(e) => Outcome(Err(e), fs)
    case Ok(programFolder) =>
      FolderCreationAt(cfg, fs, policy, StudyLevel,
                       Child(programFolder.path, cfg.naming.studyFolderName(study)), osPermits)
  }

  /** `createAssayFolder`: the study folder (and its program folder) must resolve. */
  function AssayFolderCreation(cfg: Config, fs: FileTree, policy: Policy, assay: Assay, osPermits: bool)
    : (o: Outcome<StorageFolder>)
    ensures GetStudyFolder(cfg, fs, assay.study).Err?
            ==> o == Outcome(Err(GetStudyFolder(cfg, fs, assay.study).error), fs)
    ensures GetStudyFolder(cfg, fs, assay.study).Ok?
            ==> o == FolderCreationAt(cfg, fs, policy, AssayLevel, AssayPath(cfg, assay), osPermits)
    ensures o.result.Ok? ==> o.result.value == ShallowFolder(cfg, AssayPath(cfg, assay))
    ensures o.result.Err? ==> o.fs == fs
  {
    match GetStudyFolder(cfg, fs, assay.study)
    case Err(e) => Outcome(Err(e), fs)
    case Ok(studyFolder) =>
      FolderCreationAt(cfg, fs, policy, AssayLevel,
                       Child(studyFolder.path, cfg.naming.assayFolderName(assay)), osPermits)
  }

  // ----- Ingestion (save*File) ------------------------------------------------

  /**
   * Copies `source` into a resolved folder under the source's own name. The
   * returned descriptor carries the path and URL but no name.
   */
  function FileSaveInto(cfg: Config, fs: FileTree, folder: Result<StorageFolder, StorageError>, source: Path,
                        osPermits: bool): (o: Outcome<StorageFile>)
    ensures folder.Err? ==> o == Outcome(Err(folder.error), fs)
    ensures o.result.Err? ==> o.fs == fs
    ensures folder.Ok? ==>
      var destination := Child(folder.value.path, BaseName(source));
      && (o.result.Ok? <==> CopyFile(fs, source, destination, osPermits).Some?)
      && (o.result.Ok? ==> o.result.value == StorageFile(None, destination, ObjectUrl(cfg.rootPath, destination))
                           && o.fs.Keys == fs.Keys + {destination}
                           && o.fs[destination] == File(fs[source].content)
                           && forall q :: q in fs && q != destination ==> o.fs[q] == fs[q])
      && (o.result.Err? ==> o.result.error == CopyFailed)
  {
    match folder
    case Err(e) => Outcome(Err(e), fs)
    case Ok(f) =>
      var destination := Child(f.path, BaseName(source));
      match CopyFile(fs, source, destination, osPermits)
      case None => Outcome(Err(CopyFailed), fs)
      case Some(after) => Outcome(Ok(StorageFile(None, destination, ObjectUrl(cfg.rootPath, destination))), after)
  }

  /** `saveStudyFile`. */
  function StudyFileSave(cfg: Config, fs: FileTree, source: Path, study: Study, osPermits: bool): (o: Outcome<StorageFile>)
    ensures GetStudyFolder(cfg, fs, study).Err? ==> o == Outcome(Err(GetStudyFolder(cfg, fs, study).error), fs)
    ensures o.result.Ok? ==>
      var destination := Child(StudyPath(cfg, study), BaseName(source));
      && o.result.value == StorageFile(None, destination, ObjectUrl(cfg.rootPath, destination))
      && source in fs && destination in o.fs && o.fs[destination] == fs[source]
    ensures o.result.Err? ==> o.fs == fs
  {
    FileSaveInto(cfg, fs, GetStudyFolder(cfg, fs, study), source, osPermits)
  }

  /** `saveAssayFile`. */
  function AssayFileSave(cfg: Config, fs: FileTree, source: Path, assay: Assay, osPermits: bool): (o: Outcome<StorageFile>)
    ensures GetAssayFolder(cfg, fs, assay).Err? ==> o == Outcome(Err(GetAssayFolder(cfg, fs, assay).error), fs)
    ensures o.result.Ok? ==>
      var destination := Child(AssayPath(cfg, assay), BaseName(source));
      && o.result.value == StorageFile(None, destination, ObjectUrl(cfg.rootPath, destination))
      && source in fs && destination in o.fs && o.fs[destination] == fs[source]
    ensures o.result.Err? ==> o.fs == fs
  {
    FileSaveInto(cfg, fs, GetAssayFolder(cfg, fs, assay), source, osPermits)
  }
}
