# File organiser: classification scan and empty-folder clean-up

This project models a small file-organising utility, `homework/threading_hw.py`. The utility
walks a directory tree and files every regular file into one of six buckets by its extension:
images, documents, audio, video, archives, or others. It then moves the files of the five
categories into their category folders, unpacking archives instead of moving them; files in
`others` stay where they are. Finally it removes the directories left empty. The model has
four modules and a module of generic helper lemmas:

- **Extensions** (`extensions.dfy`): `get_extensions`. An extension is the file name's pathlib
  suffix without its dot, upper-cased. The suffix follows the rule of CPython up to 3.13: it
  starts at the last dot, and only when that dot is neither the first nor the last character
  of the name.
- **Tree** (`tree.dfy`): an in-memory directory tree that stands in for the filesystem. A node
  is a file or a directory holding a listing of nodes. A path is the sequence of names below a
  starting folder.
- **Sequences** (`sequences.dfy`): a few generic facts about sequences and multisets that the
  proofs in the other modules use.
- **Classifier** (`classifier.dfy`): the parts of the scan.
  - The extension table `registered_extensions`, with a category enum as its values.
  - The five reserved category-folder names.
  - The `scan` loop, as the class `Classification`. It holds the six buckets, the sets
    `unknown` and `extensions`, and the `folders` record. Its methods update them in place.
  - The whole multi-threaded scan, as a sequential worklist loop (`Scan`). Each listing taken
    from the worklist is handled by the per-directory loop (`ScanFolder`). That loop queues the
    subdirectory listings that the original starts threads for.
  - `Scan` is proved against the reference functions `ScannedFiles` and `ScannedFolders`, which
    describe a complete depth-first scan.
- **Pruner** (`pruner.dfy`): `remove_empty_folders` and `get_folder_objects`, as recursive
  functions that return the pruned tree.

The class invariant `Valid` ties the state to a ghost record `seen` of every path filed so far:

- each bucket holds exactly the filed paths that belong in it, in filing order;
- `unknown` holds the unregistered extensions among those paths;
- `extensions` holds the registered extensions among those paths;
- `folders` holds no reserved directory.

pathlib's suffix gives no extension for a dotfile such as `.bashrc` or for a name ending in a
dot, so neither has an extension here either; the model follows pathlib.

## Model

| member | source | states |
|---|---|---|
| Extensions.Upper | homework/threading_hw.py:29 | upper-casing keeps the length of the name |
| Extensions.RFindSpec | homework/threading_hw.py:29 | the index found is that of the last dot in the name, or -1 when the name has no dot |
| Extensions.ExtensionIsSuffix | homework/threading_hw.py:29 | the extension is pathlib's suffix with its leading dot dropped, upper-cased |
| Extensions.ExtensionCharacterised | homework/threading_hw.py:28-29 | the extension is empty exactly when the name has no dot, is a dotfile whose only dot comes first, or ends in a dot; otherwise it is the upper-cased text after the last dot, which sits strictly inside the name; it never contains a dot |
| Extensions.ExtensionOfUpper | homework/threading_hw.py:29 | upper-casing a name first does not change its extension |
| Extensions.ExtensionCaseInsensitive | homework/threading_hw.py:29 | two names that agree once upper-cased have the same extension |
| Extensions.ExtensionOfTarGz | homework/threading_hw.py:29 | `a.tar.gz` has extension `GZ`: only the last suffix counts |
| Extensions.ExtensionOfDotfile | homework/threading_hw.py:29 | `.bashrc` has no extension |
| Classifier.ReservedNamesAreCategoryFolders | homework/threading_hw.py:35 | a name is skipped by the scan exactly when it is one of the five category folder names |
| Classifier.BucketCases | homework/threading_hw.py:43-55 | no extension gives `others` and records nothing; a registered one gives the table's category and is recorded as known only; an unregistered one gives `others` and is recorded as unknown only |
| Classifier.ClassifyCaseInsensitive | homework/threading_hw.py:49 | names that differ only in letter case go to the same bucket |
| Classifier.ClassifyTarGz | homework/threading_hw.py:17-29 | `a.tar.gz` is filed as an archive |
| Classifier.ClassifyDotfile | homework/threading_hw.py:43-45 | `.bashrc` is filed under `others` |
| Classifier.KeepPartition | homework/threading_hw.py:41-55 | under any classification the six buckets of a list of files add up to its length: each file is in exactly one bucket |
| Classifier.KeepPermutation | homework/threading_hw.py:41-55 | reordering the files only reorders each bucket |
| Classifier.FileStep | homework/threading_hw.py:41-55 | filing one more path adds it to its own bucket only, and adds only its own extension to the sets |
| Classifier.NewFile | homework/threading_hw.py:41-42 | the path `folder/name` is classified by the extension of `name` |
| Classifier.ScanSplitFiles | homework/threading_hw.py:33-39 | the files of a complete scan of a listing are, up to order, its direct files plus the complete scans of the subdirectories it queues |
| Classifier.ScanSplitFolders | homework/threading_hw.py:34-39 | the folders of a complete scan of a listing are, up to order, the subdirectories it queues plus what their complete scans record |
| Classifier.SubListingsWork | homework/threading_hw.py:34-39 | the subdirectories a listing queues hold no more work than its entries; the strict decrease of the worklist comes from `WorkStep`, which also counts the listing itself |
| Classifier.WorkStep | homework/threading_hw.py:32-39 | scanning the first queued listing and queueing its subdirectories keeps, up to order, the files and folders filed plus those still to come, and strictly shrinks the work left |
| Classifier.ScannedFilesExactly | homework/threading_hw.py:34-39 | the complete scan finds a file exactly when it is in the tree and no directory on its way is reserved |
| Classifier.ScannedFoldersExactly | homework/threading_hw.py:34-36 | the complete scan records a directory exactly when it is in the tree and neither it nor any directory above it is reserved |
| Classifier.ScanCoversUnreservedTree | homework/threading_hw.py:34-39 | in a tree without reserved directories the scan finds every file and records every directory |
| Classifier.Classification.constructor | homework/threading_hw.py:7-15 | the state starts with all buckets, both sets and `folders` empty, and `Valid` holds |
| Classifier.Classification.AddFile | homework/threading_hw.py:41-55 | `folder/name` is appended to its own bucket and to no other; `folders` is unchanged; the total grows by 1. No extension: goes to `others`, sets unchanged. Registered: goes to the table's bucket, and `extensions` gains the extension. Unregistered: goes to `others`, and `unknown` gains the extension |
| Classifier.Classification.Record | homework/threading_hw.py:43-55 | given the extension: the path goes to its bucket only, and `unknown` and `extensions` gain exactly what that extension contributes; `Valid` is kept |
| Classifier.Classification.Store | homework/threading_hw.py:51 | the path is appended to bucket `k` alone, the total grows by 1 and `Valid` is re-established |
| Classifier.Classification.Append | homework/threading_hw.py:51 | `container.append`: bucket `k` gains the path at its end; every other bucket and field is unchanged |
| Classifier.Classification.ProcessEntry | homework/threading_hw.py:34-55 | a reserved directory changes nothing and queues nothing. Any other directory is appended to `folders` and queued, with the buckets and sets unchanged. A file is appended to exactly one bucket, with `folders` unchanged |
| Classifier.Classification.ScanFolder | homework/threading_hw.py:32-55 | one listing: the files filed are its direct files in listing order; the listings queued are its unreserved subdirectories, which are also appended to `folders` |
| Classifier.Classification.Scan | homework/threading_hw.py:32-55 | the complete scan from the root, up to order: each bucket gains exactly the files of the scan that belong in it, and `folders` gains exactly the directories it records. `unknown` and `extensions` gain exactly the scan's unregistered and registered extensions. The total grows by the number of files found |
| Classifier.Classification.Settled | homework/threading_hw.py:41-55 | once the filed paths are, up to order, those filed before plus the paths found, each bucket and each set is what those two give |
| Classifier.Classification.CountFiled | homework/threading_hw.py:41-55 | the buckets together hold as many paths as have been filed |
| Pruner.RemoveEmptyFolders | homework/threading_hw.py:83-90 | no directory is left empty anywhere in the pruned listing |
| Pruner.PruneEntry | homework/threading_hw.py:85-90 | what one entry leaves behind holds no empty directory at any depth |
| Pruner.GetFolderObjects | homework/threading_hw.py:93-100 | a root that is not a directory fails. Otherwise the root stays, with its name, and nothing strictly beneath it is empty. Every file stays at its path, every directory enclosing a file stays, and nothing new appears |
| Pruner.PruneKeepsFiles | homework/threading_hw.py:83-90 | pruning removes no file: the file paths, in order, are unchanged |
| Pruner.PruneEmptyIffNoFiles | homework/threading_hw.py:83-90 | a listing prunes to nothing exactly when no file lies anywhere beneath it |
| Pruner.PruneKeptDirs | homework/threading_hw.py:83-90 | a directory survives exactly when it was in the tree and some file lies beneath it |
| Pruner.PruneIdentity | homework/threading_hw.py:83-90 | a tree without empty directories is left unchanged |
| Pruner.PruneIdempotent | homework/threading_hw.py:83-90 | running the clean-up twice gives the same tree as running it once |

## Left out

- Threads and the lock. This covers `Thread` creation, `start`/`join` and the `RLock` (lines 4, 25, 37-38, 107-109 and 111-138). The bucket and set updates (lines 44-55) are made under the lock. `folders.append` (line 36) is not; it relies on `list.append` being atomic in CPython. With both, a sequential worklist reaches the same final contents up to order. `Scan` therefore states its buckets and `folders` as multisets.
- Completion of the scan. `main` joins only the first scan thread (lines 107-109), not the threads that thread starts for subdirectories (lines 37-38). The model assumes the whole scan has finished before the buckets are read.
- `handle_file` and `handle_archive` (lines 58-80) are left out. They only move, create and delete files, and call `shutil.unpack_archive`, and none of that can be specified here. The move phase in `main` that calls them (lines 111-138) is left out too.
- `main`'s use of `sys.argv` (lines 103-105) is left out.
- The suffix rule is that of CPython up to 3.13. Later versions strip leading dots before looking for the suffix, so for a name such as `..b` they give no extension where the model gives `B`.
- Upper-casing is ASCII only. Python's `str.upper` maps every Unicode letter, and some of those mappings change the length of the string.
- The filesystem calls `iterdir`, `is_dir` and `rmdir` are replaced by the in-memory tree. Symbolic links and special files are not modelled. An `rmdir` that fails with `OSError` is modelled as "the directory is not empty, so keep it"; other causes of `OSError` are not modelled.
- `pathlib` path handling is simplified: a path is the list of names below the scanned root. Separators, absolute paths and normalisation are not modelled.
- Classifier.Classification.Scan: the order of paths within a bucket is not stated, only each bucket's contents as a multiset. The order in the original depends on thread scheduling. `ScanFolder` does state the order within one listing.
- Pruner.GetFolderObjects: a root that is not a directory is modelled as the `NotADirectory` outcome instead of the exception `iterdir` raises.
