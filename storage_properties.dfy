/**
 * Properties of the storage service that relate several calls, or a call and
 * the state it leaves: the creation policy across repeated calls, the
 * ancestor cascade, and the round trips create-then-resolve and
 * save-then-resolve.
 */
module StorageProperties {
  import opened Wrappers
  import opened FileSystem
  import opened ObjectUrls
  import opened Storage

  // ----- Creation policy across calls -----------------------------------------

  /** With `useExisting`, a successful creation can be repeated: the second call reuses the folder and touches nothing. */
  lemma CreateProgramTwiceReusing(cfg: Config, fs: FileTree, policy: Policy, program: Program, os1: bool, os2: bool)
    requires policy.useExisting
    requires ProgramFolderCreation(cfg, fs, policy, program, os1).result.Ok?
    ensures var first := ProgramFolderCreation(cfg, fs, policy, program, os1);
            ProgramFolderCreation(cfg, first.fs, policy, program, os2) == first
  {
  }

  /** With both flags off (the defaults), creating a folder that was just created is a duplicate and changes nothing. */
  lemma CreateProgramTwiceByDefault(cfg: Config, fs: FileTree, program: Program, os1: bool, os2: bool)
    requires ProgramFolderCreation(cfg, fs, Policy(false, false), program, os1).result.Ok?
    ensures var first := ProgramFolderCreation(cfg, fs, Policy(false, false), program, os1);
            ProgramFolderCreation(cfg, first.fs, Policy(false, false), program, os2)
            == Outcome(Err(Duplicate(ProgramLevel, ProgramPath(cfg, program))), first.fs)
  {
  }

  /**
   * A successful overwrite deletes the existing node and does not recreate it:
   * the returned descriptor names a folder that no longer resolves.
   */
  lemma OverwriteLeavesNoFolder(cfg: Config, fs: FileTree, policy: Policy, program: Program, osPermits: bool)
    requires !policy.useExisting && policy.overwriteExisting
    requires ProgramPath(cfg, program) in fs
    requires ProgramFolderCreation(cfg, fs, policy, program, osPermits).result.Ok?
    ensures var o := ProgramFolderCreation(cfg, fs, policy, program, osPermits);
            && o.result.value.path == ProgramPath(cfg, program)
            && ProgramPath(cfg, program) !in o.fs
            && GetProgramFolder(cfg, o.fs, program) == Err(NotFound(program.name))
  {
  }

  /** Overwriting cannot remove a directory that still has entries: that is a write error and nothing changes. */
  lemma OverwriteNonEmptyFails(cfg: Config, fs: FileTree, policy: Policy, program: Program, entry: Path, osPermits: bool)
    requires !policy.useExisting && policy.overwriteExisting
    requires IsDirectory(fs, ProgramPath(cfg, program))
    requires entry in fs && IsChild(entry, ProgramPath(cfg, program))
    ensures ProgramFolderCreation(cfg, fs, policy, program, osPermits)
            == Outcome(Err(WriteError(ProgramLevel, Deleting, ProgramPath(cfg, program))), fs)
  {
  }

  // ----- The ancestor cascade ---------------------------------------------------

  /**
   * A missing program folder stops every operation on its studies and their
   * assays with NotFound naming the program, and nothing is created.
   */
  lemma MissingProgramIsNotFound(cfg: Config, fs: FileTree, policy: Policy, assay: Assay, source: Path, osPermits: bool)
    requires !IsDirectory(fs, ProgramPath(cfg, assay.study.program))
    ensures var missing := NotFound(assay.study.program.name);
            && GetStudyFolder(cfg, fs, assay.study) == Err(missing)
            && GetAssayFolder(cfg, fs, assay) == Err(missing)
            && StudyFolderCreation(cfg, fs, policy, assay.study, osPermits) == Outcome(Err(missing), fs)
            && AssayFolderCreation(cfg, fs, policy, assay, osPermits) == Outcome(Err(missing), fs)
            && StudyFileSave(cfg, fs, source, assay.study, osPermits) == Outcome(Err(missing), fs)
            && AssayFileSave(cfg, fs, source, assay, osPermits) == Outcome(Err(missing), fs)
  {
  }

  /** Below an existing program, a missing study folder stops every operation on the study's assays with NotFound naming the study. */
  lemma MissingStudyIsNotFound(cfg: Config, fs: FileTree, policy: Policy, assay: Assay, source: Path, osPermits: bool)
    requires IsDirectory(fs, ProgramPath(cfg, assay.study.program))
    requires !IsDirectory(fs, StudyPath(cfg, assay.study))
    ensures var missing := NotFound(assay.study.code);
            && GetAssayFolder(cfg, fs, assay) == Err(missing)
            && AssayFolderCreation(cfg, fs, policy, assay, osPermits) == Outcome(Err(missing), fs)
            && StudyFileSave(cfg, fs, source, assay.study, osPermits) == Outcome(Err(missing), fs)
            && AssayFileSave(cfg, fs, source, assay, osPermits) == Outcome(Err(missing), fs)
  {
  }

  /** On a well-formed disk the cascade is implied by the target: a study resolves exactly when its own folder is a directory. */
  lemma StudyResolvesIffItsFolderExists(cfg: Config, fs: FileTree, study: Study)
    requires WellFormed(fs)
    ensures GetStudyFolder(cfg, fs, study).Ok? <==> IsDirectory(fs, StudyPath(cfg, study))
  {
  }

  // ----- Round trips ------------------------------------------------------------

  /** A directory that did not exist has no entries once it is made. */
  lemma FreshFolderIsEmpty(cfg: Config, fs: FileTree, after: FileTree, p: Path)
    requires WellFormed(fs) && p !in fs
    requires after.Keys == fs.Keys + {p} && IsDirectory(after, p)
    requires forall q :: q in fs ==> after[q] == fs[q]
    ensures FolderFiles(cfg, after, p) == {}
    ensures Subfolders(cfg, after, p) == {ShallowFolder(cfg, p)}
  {
  }

  /**
   * Creating an absent study folder and then resolving it gives a descriptor
   * at the same path with no files, whose subfolder listing holds only the
   * folder itself (a depth-one walk starts with its own root).
   */
  lemma CreateThenResolveStudy(cfg: Config, fs: FileTree, policy: Policy, study: Study, osPermits: bool)
    requires WellFormed(fs)
    requires StudyPath(cfg, study) !in fs
    requires StudyFolderCreation(cfg, fs, policy, study, osPermits).result.Ok?
    ensures var o := StudyFolderCreation(cfg, fs, policy, study, osPermits);
            var p := StudyPath(cfg, study);
            && o.result.value == ShallowFolder(cfg, p)
            && GetStudyFolder(cfg, o.fs, study)
               == Ok(StorageFolder(BaseName(p), p, ObjectUrl(cfg.rootPath, p), Some({}), Some({ShallowFolder(cfg, p)})))
  {
    var o := StudyFolderCreation(cfg, fs, policy, study, osPermits);
    var p := StudyPath(cfg, study);
    FreshFolderIsEmpty(cfg, fs, o.fs, p);
  }

  /**
   * After a file is saved into a study folder, resolving the study lists the
   * saved file (under the source's name) beside the files listed before, the
   * copy holds the source's bytes, and the subfolders are unchanged.
   */
  lemma SaveThenResolveStudy(cfg: Config, fs: FileTree, source: Path, study: Study, osPermits: bool)
    requires StudyFileSave(cfg, fs, source, study, osPermits).result.Ok?
    ensures var o := StudyFileSave(cfg, fs, source, study, osPermits);
            var p := StudyPath(cfg, study);
            var destination := Child(p, BaseName(source));
            && o.fs[destination] == fs[source]
            && GetStudyFolder(cfg, fs, study).Ok?
            && GetStudyFolder(cfg, o.fs, study)
               == Ok(StorageFolder(BaseName(p), p, ObjectUrl(cfg.rootPath, p),
                                   Some(FolderFiles(cfg, fs, p) + {FileEntry(cfg, destination)}),
                                   Some(Subfolders(cfg, fs, p))))
  {
    var o := StudyFileSave(cfg, fs, source, study, osPermits);
    var p := StudyPath(cfg, study);
    var destination := Child(p, BaseName(source));
    assert GetStudyFolder(cfg, fs, study).value.path == p;
    ListingsAfterWrite(cfg, fs, o.fs, p, destination);
  }

  /** Writing a regular file directly inside `p` adds it to the file listing and leaves the subfolders alone. */
  lemma ListingsAfterWrite(cfg: Config, fs: FileTree, after: FileTree, p: Path, destination: Path)
    requires IsChild(destination, p) && !IsDirectory(fs, destination)
    requires after.Keys == fs.Keys + {destination} && IsRegularFile(after, destination)
    requires forall q :: q in fs && q != destination ==> after[q] == fs[q]
    ensures FolderFiles(cfg, after, p) == FolderFiles(cfg, fs, p) + {FileEntry(cfg, destination)}
    ensures Subfolders(cfg, after, p) == Subfolders(cfg, fs, p)
  {
  }

  /** Saving a file that already sits in the study folder copies it onto itself, which the copy refuses: the generic failure, and nothing changes. */
  lemma SaveFileAlreadyInStudyFails(cfg: Config, fs: FileTree, name: string, study: Study, osPermits: bool)
    requires IsDirectory(fs, ProgramPath(cfg, study.program)) && IsDirectory(fs, StudyPath(cfg, study))
    ensures var source := Child(StudyPath(cfg, study), name);
            StudyFileSave(cfg, fs, source, study, osPermits) == Outcome(Err(CopyFailed), fs)
  {
  }

  /** Into an empty study folder, a saved file becomes the one file listed, under the source's name. */
  lemma SaveIntoEmptyStudy(cfg: Config, fs: FileTree, source: Path, study: Study, osPermits: bool)
    requires GetStudyFolder(cfg, fs, study).Ok? && GetStudyFolder(cfg, fs, study).value.files == Some({})
    requires StudyFileSave(cfg, fs, source, study, osPermits).result.Ok?
    ensures var o := StudyFileSave(cfg, fs, source, study, osPermits);
            var destination := Child(StudyPath(cfg, study), BaseName(source));
            && GetStudyFolder(cfg, o.fs, study).Ok?
            && GetStudyFolder(cfg, o.fs, study).value.files == Some({FileEntry(cfg, destination)})
            && FileEntry(cfg, destination).name == Some(BaseName(source))
  {
    SaveThenResolveStudy(cfg, fs, source, study, osPermits);
    var destination := Child(StudyPath(cfg, study), BaseName(source));
    assert FolderFiles(cfg, fs, StudyPath(cfg, study)) == {};
    assert {} + {FileEntry(cfg, destination)} == {FileEntry(cfg, destination)};
  }

  // ----- URLs of the hierarchy ----------------------------------------------------

  /** Program, study and assay folders are addressed by `/static` followed by their folder names. */
  lemma HierarchyUrls(cfg: Config, assay: Assay)
    ensures var n := cfg.naming;
            var pn := n.programFolderName(assay.study.program);
            var sn := n.studyFolderName(assay.study);
            var an := n.assayFolderName(assay);
            && ObjectUrl(cfg.rootPath, ProgramPath(cfg, assay.study.program)) == RootUrl + "/" + pn
            && ObjectUrl(cfg.rootPath, StudyPath(cfg, assay.study)) == RootUrl + "/" + pn + "/" + sn
            && ObjectUrl(cfg.rootPath, AssayPath(cfg, assay)) == RootUrl + "/" + pn + "/" + sn + "/" + an
  {
    var n := cfg.naming;
    var pn := n.programFolderName(assay.study.program);
    var sn := n.studyFolderName(assay.study);
    var root := cfg.rootPath;
    ChildUrl(root, [], pn);
    assert root + [] == root;
    ChildUrl(root, [pn], sn);
    assert root + [pn] + [sn] == StudyPath(cfg, assay.study);
    ChildUrl(root, [pn, sn], n.assayFolderName(assay));
    assert root + [pn, sn] == StudyPath(cfg, assay.study);
    DescendantUrl(root, []);
    assert Join([]) == "";
  }
}
