/**
 * `LocalFileSystemStudyStorageService`: the stateful service. It holds the
 * fixed configuration, the two conflict flags, and the filesystem it works
 * on; each operation is proved to leave exactly the result and filesystem
 * that the `Storage` functions describe.
 */
module StorageService {
  import opened Wrappers
  import opened FileSystem
  import opened Storage

  class LocalFileSystemStudyStorageService {
    /** The storage root and the folder-naming helpers, fixed at construction. */
    const cfg: Config
    var overwriteExisting: bool
    var useExisting: bool
    /** The disk the service reads and writes. */
    var fs: FileTree

    ghost predicate Valid()
      reads this
    {
      WellFormed(fs)
    }

    function CurrentPolicy(): Policy
      reads this
    {
      Policy(useExisting, overwriteExisting)
    }

    /** Both conflict flags start out false. */
    constructor (rootPath: Path, naming: Naming, disk: FileTree)
      requires WellFormed(disk)
      ensures Valid()
      ensures cfg == Config(rootPath, naming) && fs == disk
      ensures !useExisting && !overwriteExisting
    {
      cfg := Config(rootPath, naming);
      fs := disk;
      overwriteExisting := false;
      useExisting := false;
    }

    method SetOverwriteExisting(overwriteExisting: bool)
      modifies this`overwriteExisting
      ensures this.overwriteExisting == overwriteExisting
    {
      this.overwriteExisting := overwriteExisting;
    }

    method SetUseExisting(useExisting: bool)
      modifies this`useExisting
      ensures this.useExisting == useExisting
    {
      this.useExisting := useExisting;
    }

    /** The shared body of the three `create*Folder` methods, once the target is known. */
    method CreateFolderAt(level: Level, target: Path, osPermits: bool) returns (r: Result<StorageFolder, StorageError>)
      requires Valid()
      modifies this`fs
      ensures Valid()
      ensures Outcome(r, fs) == FolderCreationAt(cfg, old(fs), CurrentPolicy(), level, target, osPermits)
    {
      if target in fs {
        if useExisting {
          // the existing node is reused as it is
        } else if overwriteExisting {
          var deleted := Delete(fs, target, osPermits);
          if deleted.None? {
            return Err(WriteError(level, Deleting, target));
          }
          DeleteKeepsWellFormed(fs, target, osPermits);
          fs := deleted.value;
        } else {
          return Err(Duplicate(level, target));
        }
      } else {
        var made := Mkdir(fs, target, osPermits);
        if made.None? {
          return Err(WriteError(level, Creating, target));
        }
        MkdirKeepsWellFormed(fs, target, osPermits);
        fs := made.value;
      }
      r := Ok(ShallowFolder(cfg, target));
    }

    method CreateProgramFolder(program: Program, osPermits: bool) returns (r: Result<StorageFolder, StorageError>)
      requires Valid()
      modifies this`fs
      ensures Valid()
      ensures Outcome(r, fs) == ProgramFolderCreation(cfg, old(fs), CurrentPolicy(), program, osPermits)
    {
      r := CreateFolderAt(ProgramLevel, ProgramPath(cfg, program), osPermits);
    }

    method CreateStudyFolder(study: Study, osPermits: bool) returns (r: Result<StorageFolder, StorageError>)
      requires Valid()
      modifies this`fs
      ensures Valid()
      ensures Outcome(r, fs) == StudyFolderCreation(cfg, old(fs), CurrentPolicy(), study, osPermits)
    {
      var programFolder := GetProgramFolder(cfg, fs, study.program);
      if programFolder.Err? {
        return Err(programFolder.error);
      }
      var studyPath := Child(programFolder.value.path, cfg.naming.studyFolderName(study));
      r := CreateFolderAt(StudyLevel, studyPath, osPermits);
    }

    method CreateAssayFolder(assay: Assay, osPermits: bool) returns (r: Result<StorageFolder, StorageError>)
      requires Valid()
      modifies this`fs
      ensures Valid()
      ensures Outcome(r, fs) == AssayFolderCreation(cfg, old(fs), CurrentPolicy(), assay, osPermits)
    {
      var studyFolder := GetStudyFolder(cfg, fs, assay.study);
      if studyFolder.Err? {
        return Err(studyFolder.error);
      }
      var assayPath := Child(studyFolder.value.path, cfg.naming.assayFolderName(assay));
      r := CreateFolderAt(AssayLevel, assayPath, osPermits);
    }

    /** The shared body of the two `save*File` methods, once the folder is resolved. */
    method SaveFileInto(folder: StorageFolder, source: Path, osPermits: bool) returns (r: Result<StorageFile, StorageError>)
      requires Valid()
      modifies this`fs
      ensures Valid()
      ensures Outcome(r, fs) == FileSaveInto(cfg, old(fs), Ok(folder), source, osPermits)
    {
      var destination := Child(folder.path, BaseName(source));
      var copied := CopyFile(fs, source, destination, osPermits);
      if copied.None? {
        return Err(CopyFailed);
      }
      CopyFileKeepsWellFormed(fs, source, destination, osPermits);
      fs := copied.value;
      r := Ok(StorageFile(None, destination, ObjectUrls.ObjectUrl(cfg.rootPath, destination)));
    }

    method SaveStudyFile(source: Path, study: Study, osPermits: bool) returns (r: Result<StorageFile, StorageError>)
      requires Valid()
      modifies this`fs
      ensures Valid()
      ensures Outcome(r, fs) == StudyFileSave(cfg, old(fs), source, study, osPermits)
    {
      var studyFolder := GetStudyFolder(cfg, fs, study);
      if studyFolder.Err? {
        return Err(studyFolder.error);
      }
      r := SaveFileInto(studyFolder.value, source, osPermits);
    }

    method SaveAssayFile(source: Path, assay: Assay, osPermits: bool) returns (r: Result<StorageFile, StorageError>)
      requires Valid()
      modifies this`fs
      ensures Valid()
      ensures Outcome(r, fs) == AssayFileSave(cfg, old(fs), source, assay, osPermits)
    {
      var assayFolder := GetAssayFolder(cfg, fs, assay);
      if assayFolder.Err? {
        return Err(assayFolder.error);
      }
      r := SaveFileInto(assayFolder.value, source, osPermits);
    }
  }
}
