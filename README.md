# Study-Tracker storage core, in Dafny

This project models two parts of Study-Tracker.

1. **The local-filesystem study storage service** (`LocalFileSystemStudyStorageService`). It lays the
   Program → Study → Assay hierarchy out as directories under a storage root. It resolves a folder,
   cascading through the ancestors. It creates a folder under the `useExisting` / `overwriteExisting`
   conflict policy. It copies an uploaded file into a resolved folder. It addresses every item by the URL
   `/static` + the item's path relative to the root.
2. **The keyword option table of the web client** (`keywordConstants.js`). This is a constant table of six
   options, two last-match-wins lookups, and a value → option map.

## Layout

- `wrappers.dfy`: `Option` (Java/JavaScript `null`) and `Result` (a return or a thrown exception).
- `filesystem.dfy`, module `FileSystem`. The disk is a `map<Path, Node>`, where a path is a sequence of
  segments from `/` and a `Node` is `Dir` or `File(bytes)`. `WellFormed` says that `/` is a directory and
  every other node sits in a directory. The three operating-system calls the service makes are pure
  functions: `Mkdir` (`File.mkdir`), `Delete` (`File.delete`, which removes only a file or an empty
  directory) and `CopyFile` (`FileUtils.copyFile`). Each one takes a `permitted` flag that stands for the
  operating system's own verdict (permissions, disk space, races).
- `urls.dfy`, module `ObjectUrls`. It holds `Relativize` (`Path.relativize`, including the `..` steps for a
  path outside the base) and `ObjectUrl` (`getObjectUrl`). It also holds an inverse, `ParseUrl`, which
  shows that a URL identifies its item.
- `storage.dfy`, module `Storage`. It defines the entities (only `code`, `name` and the parent link are
  read), the descriptors and the error taxonomy. Resolution (`GetProgramFolder`, `GetStudyFolder`,
  `GetAssayFolder`, with `FolderFiles` / `Subfolders`) is a function of the configuration and the current
  disk. Creation and ingestion are specified by functions that return the result together with the disk
  they leave behind (`Outcome`).
- `service.dfy`, module `StorageService`. The class `LocalFileSystemStudyStorageService` holds the fixed
  configuration, the two flags (both false at construction) and the disk. Its `create*`/`save*` methods
  update the disk. Each method is proved to produce exactly the result and disk that the `Storage`
  function gives for the old disk, and to keep the disk well formed.
- `storage_properties.dfy`, module `StorageProperties`. These are properties that span several calls: the
  policy over repeated creation, the ancestor cascade, the create-then-resolve and save-then-resolve round
  trips, and the URLs of the hierarchy.
- `keywords.dfy`, module `KeywordConstants`. It holds the table, the specification `LastMatch`, the two
  lookups and the map builder, written as loops like the source's `forEach`, and the table's distinctness.

The folder-naming helpers (`StorageUtils.get*FolderName`) are not part of this model. They are carried as
arbitrary functions in `Naming`, and nothing here depends on their format. The service reads the disk
through `fs`. "Resolution changes nothing" holds because the `Get*Folder` members are functions: they
cannot change the disk.

The model follows the code as written, including these behaviours a reader might not expect:

- `getProgramFolder` reports a missing program by its **name**. A missing study or assay is reported by its
  code.
- The subfolder listing of a resolved folder contains **the folder itself**, because a depth-one walk starts
  at its root. A freshly created folder therefore resolves with no files and with itself as its one
  subfolder.
- The overwrite branch **deletes** the existing node and does **not** recreate it. The returned descriptor
  names a path that no longer exists. A non-empty directory cannot be deleted, which gives WriteError.
- An existing *file* at the target path also counts as "exists" for the conflict policy.
- Saving a file that already sits in the target folder is a copy onto itself, which fails with the generic
  failure.
- A created folder's descriptor has no file or subfolder listings. A saved file's descriptor has a path and
  a URL but **no name**.

## Model

| member | source | states |
|---|---|---|
| `FileSystem.MkdirKeepsWellFormed` | core/src/main/java/com/decibeltx/studytracker/core/storage/LocalFileSystemStudyStorageService.java:185-191 | mkdir adds exactly the one directory, changes no other node, and keeps the tree well formed |
| `FileSystem.DeleteKeepsWellFormed` | core/src/main/java/com/decibeltx/studytracker/core/storage/LocalFileSystemStudyStorageService.java:174-180 | a successful delete removes exactly the one node (a file or an empty directory) and keeps the tree well formed |
| `FileSystem.CopyFileKeepsWellFormed` | core/src/main/java/com/decibeltx/studytracker/core/storage/LocalFileSystemStudyStorageService.java:279-283 | a successful copy makes the destination hold the source's bytes, replacing any file there, and changes nothing else |
| `ObjectUrls.CommonPrefixLength` | core/src/main/java/com/decibeltx/studytracker/core/storage/LocalFileSystemStudyStorageService.java:60 | the length of the longest common prefix of the root and the path, which `relativize` climbs out to |
| `ObjectUrls.RelativizeDescendant` | core/src/main/java/com/decibeltx/studytracker/core/storage/LocalFileSystemStudyStorageService.java:60 | relativizing a path under the root gives exactly its part below the root |
| `ObjectUrls.RelativizeOutside` | core/src/main/java/com/decibeltx/studytracker/core/storage/LocalFileSystemStudyStorageService.java:60 | a path outside the root relativizes to one that begins by climbing out with `..` |
| `ObjectUrls.ObjectUrl` | core/src/main/java/com/decibeltx/studytracker/core/storage/LocalFileSystemStudyStorageService.java:59-62 | every object URL begins with `/static`, and it is exactly `/static` only for the storage root itself |
| `ObjectUrls.DescendantUrl` | core/src/main/java/com/decibeltx/studytracker/core/storage/LocalFileSystemStudyStorageService.java:44-44 | an item's URL is `/static` followed by `/` and each segment of its path below the root |
| `ObjectUrls.ChildUrl` | core/src/main/java/com/decibeltx/studytracker/core/storage/LocalFileSystemStudyStorageService.java:95-101 | the URL of an entry of a folder under the root is the folder's URL followed by `/` and the entry's name |
| `ObjectUrls.ObjectUrlRoundTrip` | core/src/main/java/com/decibeltx/studytracker/core/storage/LocalFileSystemStudyStorageService.java:59-62 | reading the URL of an item under the root back gives that item's path below the root |
| `ObjectUrls.ObjectUrlInjective` | core/src/main/java/com/decibeltx/studytracker/core/storage/LocalFileSystemStudyStorageService.java:59-62 | two different items under the root never share a URL |
| `Storage.FolderFiles` | core/src/main/java/com/decibeltx/studytracker/core/storage/LocalFileSystemStudyStorageService.java:70-85 | the file listing is exactly the regular files at depth one, each with its name, path and URL |
| `Storage.Subfolders` | core/src/main/java/com/decibeltx/studytracker/core/storage/LocalFileSystemStudyStorageService.java:93-108 | the subfolder listing is exactly the directories at depth one plus the folder itself, each with name, path and URL |
| `Storage.ResolveFolder` | core/src/main/java/com/decibeltx/studytracker/core/storage/LocalFileSystemStudyStorageService.java:113-123 | one level resolves if and only if its path is an existing directory (a regular file there is NotFound); the descriptor's URL is the object URL of its path |
| `Storage.GetProgramFolder` | core/src/main/java/com/decibeltx/studytracker/core/storage/LocalFileSystemStudyStorageService.java:110-124 | the program folder resolves if and only if it is a directory; otherwise NotFound carries the program's name; on success the descriptor is fully listed |
| `Storage.GetStudyFolder` | core/src/main/java/com/decibeltx/studytracker/core/storage/LocalFileSystemStudyStorageService.java:126-144 | resolves the program first; NotFound names the program if its folder is missing, else the study's code if the study folder is missing; success if and only if both exist |
| `Storage.GetAssayFolder` | core/src/main/java/com/decibeltx/studytracker/core/storage/LocalFileSystemStudyStorageService.java:146-163 | cascades through program and study; NotFound names the first missing level (program name, study code, assay code); success if and only if all three exist |
| `Storage.FolderCreationAt` | core/src/main/java/com/decibeltx/studytracker/core/storage/LocalFileSystemStudyStorageService.java:170-196 | the conflict policy: an existing node is kept with useExisting (which wins over overwrite), else deleted with overwriteExisting (WriteError if the delete fails), else Duplicate; an absent target takes one mkdir (WriteError on failure); failures leave the disk unchanged; success returns a descriptor without listings |
| `Storage.FileSaveInto` | core/src/main/java/com/decibeltx/studytracker/core/storage/LocalFileSystemStudyStorageService.java:276-287 | an unresolved folder's error passes through; the copy goes to the folder joined with the source's base name; a failed copy is the generic failure with the disk unchanged; success returns path and URL without a name |
| `Storage.ProgramFolderCreation` | core/src/main/java/com/decibeltx/studytracker/core/storage/LocalFileSystemStudyStorageService.java:165-197 | creating a program folder acts on the folder under the root; success returns its shallow descriptor, failure leaves the disk unchanged, and an absent folder becomes a directory |
| `Storage.StudyFolderCreation` | core/src/main/java/com/decibeltx/studytracker/core/storage/LocalFileSystemStudyStorageService.java:199-233 | a missing program folder is NotFound naming the program with the disk unchanged; otherwise the conflict policy applies to the study's folder under it |
| `Storage.AssayFolderCreation` | core/src/main/java/com/decibeltx/studytracker/core/storage/LocalFileSystemStudyStorageService.java:235-269 | a study that does not resolve passes its NotFound through with the disk unchanged; otherwise the conflict policy applies to the assay's folder under it |
| `Storage.StudyFileSave` | core/src/main/java/com/decibeltx/studytracker/core/storage/LocalFileSystemStudyStorageService.java:271-288 | a study that does not resolve passes its NotFound through; a successful save puts the source's bytes in the study folder under the source's name and returns path and URL without a name; failures leave the disk unchanged |
| `Storage.AssayFileSave` | core/src/main/java/com/decibeltx/studytracker/core/storage/LocalFileSystemStudyStorageService.java:290-307 | an assay that does not resolve passes its NotFound through; a successful save puts the source's bytes in the assay folder under the source's name and returns path and URL without a name; failures leave the disk unchanged |
| `StorageService.LocalFileSystemStudyStorageService.constructor` | core/src/main/java/com/decibeltx/studytracker/core/storage/LocalFileSystemStudyStorageService.java:43-50 | the service starts on the given root and disk with both conflict flags false |
| `StorageService.LocalFileSystemStudyStorageService.SetOverwriteExisting` | core/src/main/java/com/decibeltx/studytracker/core/storage/LocalFileSystemStudyStorageService.java:309-311 | sets the overwrite flag |
| `StorageService.LocalFileSystemStudyStorageService.SetUseExisting` | core/src/main/java/com/decibeltx/studytracker/core/storage/LocalFileSystemStudyStorageService.java:313-315 | sets the reuse flag |
| `StorageService.LocalFileSystemStudyStorageService.CreateFolderAt` | core/src/main/java/com/decibeltx/studytracker/core/storage/LocalFileSystemStudyStorageService.java:171-196 | the shared creation body updates the disk exactly as `FolderCreationAt` says for the old disk and keeps it well formed |
| `StorageService.LocalFileSystemStudyStorageService.CreateProgramFolder` | core/src/main/java/com/decibeltx/studytracker/core/storage/LocalFileSystemStudyStorageService.java:165-197 | result and new disk are `ProgramFolderCreation` of the old disk under the current flags |
| `StorageService.LocalFileSystemStudyStorageService.CreateStudyFolder` | core/src/main/java/com/decibeltx/studytracker/core/storage/LocalFileSystemStudyStorageService.java:199-233 | result and new disk are `StudyFolderCreation` of the old disk: resolve the program, then create under it |
| `StorageService.LocalFileSystemStudyStorageService.CreateAssayFolder` | core/src/main/java/com/decibeltx/studytracker/core/storage/LocalFileSystemStudyStorageService.java:235-269 | result and new disk are `AssayFolderCreation` of the old disk: resolve the study, then create under it |
| `StorageService.LocalFileSystemStudyStorageService.SaveFileInto` | core/src/main/java/com/decibeltx/studytracker/core/storage/LocalFileSystemStudyStorageService.java:276-287 | the shared copy body updates the disk exactly as `FileSaveInto` says and keeps it well formed |
| `StorageService.LocalFileSystemStudyStorageService.SaveStudyFile` | core/src/main/java/com/decibeltx/studytracker/core/storage/LocalFileSystemStudyStorageService.java:271-288 | result and new disk are `StudyFileSave` of the old disk: resolve the study folder, then copy into it |
| `StorageService.LocalFileSystemStudyStorageService.SaveAssayFile` | core/src/main/java/com/decibeltx/studytracker/core/storage/LocalFileSystemStudyStorageService.java:290-307 | result and new disk are `AssayFileSave` of the old disk: resolve the assay folder, then copy into it |
| `StorageProperties.CreateProgramTwiceReusing` | core/src/main/java/com/decibeltx/studytracker/core/storage/LocalFileSystemStudyStorageService.java:171-173 | with useExisting, repeating a successful creation returns the same descriptor and leaves the disk as it is |
| `StorageProperties.CreateProgramTwiceByDefault` | core/src/main/java/com/decibeltx/studytracker/core/storage/LocalFileSystemStudyStorageService.java:181-184 | with both flags false, repeating a successful creation is a Duplicate naming the folder, and the disk is unchanged |
| `StorageProperties.OverwriteLeavesNoFolder` | core/src/main/java/com/decibeltx/studytracker/core/storage/LocalFileSystemStudyStorageService.java:174-180 | a successful overwrite returns the descriptor of a folder that no longer exists and no longer resolves |
| `StorageProperties.OverwriteNonEmptyFails` | core/src/main/java/com/decibeltx/studytracker/core/storage/LocalFileSystemStudyStorageService.java:176-180 | overwriting a directory that has entries is a WriteError (delete) and changes nothing |
| `StorageProperties.MissingProgramIsNotFound` | core/src/main/java/com/decibeltx/studytracker/core/storage/LocalFileSystemStudyStorageService.java:115-115 | with the program folder missing, every resolve, create and save for its studies and assays is NotFound naming the program, and the disk is unchanged |
| `StorageProperties.MissingStudyIsNotFound` | core/src/main/java/com/decibeltx/studytracker/core/storage/LocalFileSystemStudyStorageService.java:134-136 | with the program present and the study folder missing, assay resolution and creation and both saves are NotFound naming the study's code |
| `StorageProperties.StudyResolvesIffItsFolderExists` | core/src/main/java/com/decibeltx/studytracker/core/storage/LocalFileSystemStudyStorageService.java:129-136 | on a well-formed disk a study resolves if and only if its own folder is a directory |
| `StorageProperties.CreateThenResolveStudy` | core/src/main/java/com/decibeltx/studytracker/core/storage/LocalFileSystemStudyStorageService.java:220-231 | creating an absent study folder and then resolving it gives the same path with no files and only itself as subfolder |
| `StorageProperties.SaveThenResolveStudy` | core/src/main/java/com/decibeltx/studytracker/core/storage/LocalFileSystemStudyStorageService.java:275-283 | after a save, the study lists the earlier files plus the new one under the source's name, with the source's bytes; subfolders are unchanged |
| `StorageProperties.ListingsAfterWrite` | core/src/main/java/com/decibeltx/studytracker/core/storage/LocalFileSystemStudyStorageService.java:70-108 | writing a regular file directly inside a folder adds exactly its entry to the file listing and leaves the subfolder listing unchanged |
| `StorageProperties.SaveFileAlreadyInStudyFails` | core/src/main/java/com/decibeltx/studytracker/core/storage/LocalFileSystemStudyStorageService.java:277-283 | saving a file that already sits in the study folder copies it onto itself, which fails with the generic failure and changes nothing |
| `StorageProperties.SaveIntoEmptyStudy` | core/src/main/java/com/decibeltx/studytracker/core/storage/LocalFileSystemStudyStorageService.java:277-280 | a file saved into an empty study folder becomes its one listed file, named after the source |
| `StorageProperties.HierarchyUrls` | core/src/main/java/com/decibeltx/studytracker/core/storage/LocalFileSystemStudyStorageService.java:59-62 | program, study and assay folders are addressed by `/static/` followed by their folder names joined by `/` |
| `KeywordConstants.LastMatchNone` | react/config/keywordConstants.js:70-78 | a lookup gives null exactly when no option carries the searched value |
| `KeywordConstants.LastMatchFound` | react/config/keywordConstants.js:80-88 | a non-null lookup result is an option of the table that carries the searched key |
| `KeywordConstants.LastMatchIsLast` | react/config/keywordConstants.js:72-76 | the result is the last option in table order that matches, because `forEach` overwrites earlier matches |
| `KeywordConstants.FindKeywordByValue` | react/config/keywordConstants.js:70-78 | the loop returns the last option whose value equals the argument, or null |
| `KeywordConstants.FindKeywordByType` | react/config/keywordConstants.js:80-88 | the loop returns the last option whose type equals the argument, or null |
| `KeywordConstants.KeywordOptionMap` | react/config/keywordConstants.js:90-96 | the map's keys are exactly the option values, and each key maps to the option that `findKeywordByValue` returns for it (the later one where values repeat) |
| `KeywordConstants.OptionsAreDistinct` | react/config/keywordConstants.js:19-68 | the table has six options, with pairwise distinct values and pairwise distinct types |
| `KeywordConstants.LookupsAreUnambiguous` | react/config/keywordConstants.js:19-88 | each option is exactly what the value lookup and the type lookup return for its own value and type |

## Left out

- The folder-naming helpers of `StorageUtils` are not part of this model. They are arbitrary functions
  that yield one segment. Java's `Path.resolve` of an empty or absolute name, path normalisation and
  platform separators are not modelled either.
- Operating-system failures of mkdir, delete and copy (permissions, disk full, races) are not derived. They
  are an input flag, `osPermits`, given to each operation.
- `FileUtils.copyFile`: the model makes the destination hold the source's bytes, and it fails when the source
  is not a regular file, when source and destination are the same file, or when the destination is a
  directory. The library's creation of missing parent directories is not modelled, because the service
  always copies into a folder it has just resolved. Same-file detection compares paths, not canonical
  paths, since links and normalisation are not modelled. Any copy failure is the generic failure.
- The `IOException` of a directory walk (wrapped as a generic failure) is not modelled. Listings always
  succeed.
- The order of a directory walk is not modelled, so listings are sets.
- Logging is not modelled.
- Concurrency is not modelled: the check-then-act races between `exists()` and `mkdir`/`delete`. The
  service is a single sequential owner of its disk.
- Symbolic links are not modelled.
- The `get*Folder` operations are functions of the configuration and the disk, not class methods. They
  only read.
- The JavaScript lookups compare with `===`, so a non-string argument simply finds nothing. The model takes
  only string arguments.
- `keywordOptionMap` is evaluated once on the table at load time. Here it is a method over any option
  list, applied to `KeywordOptions`.
- The React components, the HTTP controllers, the notebook and search integrations, and the service tests
  are outside this model. The only part of `Program.java` used is its `code`/`name` fields.
