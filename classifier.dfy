/** The scan phase of homework/threading_hw.py: the fixed extension table, the reserved
    category folder names, and the loop of `scan` that files every regular file into one bucket.
    The original runs one thread per subdirectory.  Its bucket and set updates are made under
    one lock; its `folders.append` is not, and relies on list appends being atomic in CPython.
    Here a worklist of listings still to be scanned is processed one listing at a time. */
module Classifier {
  import opened Extensions
  import opened Tree
  import opened Sequences

  /** The five categories of the extension table. */
  datatype Category = Images | Documents | Audio | Video | Archives

  /** The six buckets a file can land in: one per category, plus `others`. */
  datatype Bucket = Filed(category: Category) | Others

  /** registered_extensions: upper-case extension to category. */
  const Registered: map<string, Category> := map[
    "JPEG" := Images, "PNG" := Images, "JPG" := Images, "SVG" := Images,
    "AVI" := Video, "MP4" := Video, "MOV" := Video, "MKV" := Video,
    "TXT" := Documents, "DOC" := Documents, "DOCX" := Documents, "PDF" := Documents,
    "XLSX" := Documents, "PPTX" := Documents,
    "ZIP" := Archives, "GZ" := Archives, "TAR" := Archives,
    "MP3" := Audio, "OGG" := Audio, "WAV" := Audio, "AMR" := Audio
  ]

  /** The folder under the root that the organiser moves a category's files into. */
  function FolderName(c: Category): (r: string)
  {
    match c
    case Images => "images"
    case Documents => "documents"
    case Audio => "audio"
    case Video => "video"
    case Archives => "archives"
  }

  /** Directory names the scan never records or descends into. */
  const ReservedNames: set<string> := {"images", "documents", "audio", "video", "archives"}

  predicate IsReserved(name: string)
  {
    name in ReservedNames
  }

  /** The reserved names are exactly the category folders, so organised output is never
      scanned again. */
  lemma ReservedNamesAreCategoryFolders(name: string)
    ensures IsReserved(name) <==> exists c :: FolderName(c) == name
  {
    if name == "images" { assert FolderName(Images) == name; }
    if name == "documents" { assert FolderName(Documents) == name; }
    if name == "audio" { assert FolderName(Audio) == name; }
    if name == "video" { assert FolderName(Video) == name; }
    if name == "archives" { assert FolderName(Archives) == name; }
  }

  /** The bucket for an extension: `others` when it is empty or not in the table, otherwise
      the category the table gives. */
  function BucketOf(ext: string): (r: Bucket)
  {
    if ext == "" then Others
    else if ext in Registered then Filed(Registered[ext])
    else Others
  }

  /** The bucket a file with this name is filed into. */
  function ClassifyName(name: string): (r: Bucket)
  {
    BucketOf(GetExtension(name))
  }

  function ExtensionOf(p: Path): (r: string)
  {
    GetExtension(PathName(p))
  }

  function ClassifyPath(p: Path): (r: Bucket)
  {
    BucketOf(ExtensionOf(p))
  }

  /** Files whose names differ only in letter case land in the same bucket. */
  lemma ClassifyCaseInsensitive(a: string, b: string)
    requires Upper(a) == Upper(b)
    ensures ClassifyName(a) == ClassifyName(b)
  {
    ExtensionCaseInsensitive(a, b);
  }

  /** a.tar.gz is filed as an archive, by its last suffix. */
  lemma ClassifyTarGz()
    ensures ClassifyName("a.tar.gz") == Filed(Archives)
  {
    ExtensionOfTarGz();
  }

  /** A dotfile has no extension and goes to `others`. */
  lemma ClassifyDotfile()
    ensures ClassifyName(".bashrc") == Others
  {
    ExtensionOfDotfile();
  }

  /** The paths of `files` that `classify` sends to bucket `b`, in their original order. */
  function Keep(classify: Path -> Bucket, files: seq<Path>, b: Bucket): (r: seq<Path>)
  {
    if files == [] then []
    else (if classify(files[0]) == b then [files[0]] else []) + Keep(classify, files[1..], b)
  }

  /** The paths of `files` that belong in bucket `b`, in their original order. */
  function Select(files: seq<Path>, b: Bucket): (r: seq<Path>)
  {
    Keep(ClassifyPath, files, b)
  }

  /** An extension as `unknown` records it: when it is non-empty and not in the table. */
  function Unknown(ext: string): (r: set<string>)
  {
    if ext != "" && ext !in Registered then {ext} else {}
  }

  /** An extension as `extensions` records it: when it is in the table. */
  function Known(ext: string): (r: set<string>)
  {
    if ext in Registered then {ext} else {}
  }

  /** The three outcomes of looking an extension up: no extension, a registered one, and an
      unregistered one. */
  lemma BucketCases(ext: string)
    ensures ext == "" ==> BucketOf(ext) == Others && Unknown(ext) == {} && Known(ext) == {}
    ensures ext in Registered ==>
              ext != "" && BucketOf(ext) == Filed(Registered[ext]) && Known(ext) == {ext} && Unknown(ext) == {}
    ensures ext != "" && ext !in Registered ==>
              BucketOf(ext) == Others && Unknown(ext) == {ext} && Known(ext) == {}
  {
    assert "" !in Registered;
  }

  function UnknownExt(p: Path): (r: set<string>)
  {
    Unknown(ExtensionOf(p))
  }

  function KnownExt(p: Path): (r: set<string>)
  {
    Known(ExtensionOf(p))
  }

  /** Everything `extract` records for the paths of `files`, together. */
  function Collect(extract: Path -> set<string>, files: seq<Path>): (r: set<string>)
  {
    if files == [] then {} else extract(files[0]) + Collect(extract, files[1..])
  }

  /** The unregistered, non-empty extensions that occur among `files`. */
  function UnknownOf(files: seq<Path>): (r: set<string>)
  {
    Collect(UnknownExt, files)
  }

  /** The registered extensions that occur among `files`. */
  function KnownOf(files: seq<Path>): (r: set<string>)
  {
    Collect(KnownExt, files)
  }

  lemma {:induction false} KeepConcat(classify: Path -> Bucket, a: seq<Path>, b: seq<Path>, k: Bucket)
    ensures Keep(classify, a + b, k) == Keep(classify, a, k) + Keep(classify, b, k)
    decreases a
  {
    if a == [] {
      assert a + b == b;
    } else {
      ConcatHeadTail(a, b);
      KeepConcat(classify, a[1..], b, k);
      AppendAssoc(if classify(a[0]) == k then [a[0]] else [], Keep(classify, a[1..], k), Keep(classify, b, k));
    }
  }

  /** Each path occurs in its own bucket as often as among the files, and in no other bucket. */
  lemma {:induction false} KeepCount(classify: Path -> Bucket, files: seq<Path>, k: Bucket, p: Path)
    ensures multiset(Keep(classify, files, k))[p] == if classify(p) == k then multiset(files)[p] else 0
    decreases files
  {
    if files != [] {
      KeepCount(classify, files[1..], k, p);
      HeadTail(files);
    }
  }

  lemma KeepPermutation(classify: Path -> Bucket, a: seq<Path>, b: seq<Path>, k: Bucket)
    requires multiset(a) == multiset(b)
    ensures multiset(Keep(classify, a, k)) == multiset(Keep(classify, b, k))
  {
    forall p ensures multiset(Keep(classify, a, k))[p] == multiset(Keep(classify, b, k))[p] {
      KeepCount(classify, a, k, p);
      KeepCount(classify, b, k, p);
    }
  }

  /** Every file lands in exactly one of the six buckets: their lengths add up to the number
      of files. */
  lemma {:induction false} KeepPartition(classify: Path -> Bucket, files: seq<Path>)
    ensures |files| ==
              |Keep(classify, files, Filed(Images))| + |Keep(classify, files, Filed(Documents))|
              + |Keep(classify, files, Filed(Audio))| + |Keep(classify, files, Filed(Video))|
              + |Keep(classify, files, Filed(Archives))| + |Keep(classify, files, Others)|
    decreases files
  {
    if files != [] {
      KeepPartition(classify, files[1..]);
      match classify(files[0])
      case Filed(Images) =>
      case Filed(Documents) =>
      case Filed(Audio) =>
      case Filed(Video) =>
      case Filed(Archives) =>
      case Others =>
    }
  }

  /** Two classifications that agree on the files select the same paths. */
  lemma {:induction false} KeepAgree(f: Path -> Bucket, g: Path -> Bucket, files: seq<Path>, k: Bucket)
    requires forall p :: p in files ==> f(p) == g(p)
    ensures Keep(f, files, k) == Keep(g, files, k)
    decreases files
  {
    if files != [] {
      assert files[0] in files;
      KeepAgree(f, g, files[1..], k);
    }
  }

  lemma {:induction false} CollectConcat(extract: Path -> set<string>, a: seq<Path>, b: seq<Path>)
    ensures Collect(extract, a + b) == Collect(extract, a) + Collect(extract, b)
    decreases a
  {
    if a == [] {
      assert a + b == b;
    } else {
      ConcatHeadTail(a, b);
      CollectConcat(extract, a[1..], b);
    }
  }

  /** A value is collected exactly when it is recorded for some path of `files`. */
  lemma {:induction false} CollectMember(extract: Path -> set<string>, files: seq<Path>, e: string)
    ensures e in Collect(extract, files) <==> exists p :: p in files && e in extract(p)
    decreases files
  {
    if files != [] {
      CollectMember(extract, files[1..], e);
      assert forall p :: p in files <==> p == files[0] || p in files[1..];
    }
  }

  /** What is collected depends only on which paths occur, not on their order or repetition. */
  lemma CollectSameMembers(extract: Path -> set<string>, a: seq<Path>, b: seq<Path>)
    requires forall p :: p in a <==> p in b
    ensures Collect(extract, a) == Collect(extract, b)
  {
    forall e ensures e in Collect(extract, a) <==> e in Collect(extract, b) {
      CollectMember(extract, a, e);
      CollectMember(extract, b, e);
    }
  }

  /** Two extractions that agree on the files collect the same values. */
  lemma {:induction false} CollectAgree(f: Path -> set<string>, g: Path -> set<string>, files: seq<Path>)
    requires forall p :: p in files ==> f(p) == g(p)
    ensures Collect(f, files) == Collect(g, files)
    decreases files
  {
    if files != [] {
      assert files[0] in files;
      CollectAgree(f, g, files[1..]);
    }
  }

  /** Filing one more path changes each bucket and each extension set by that path alone. */
  lemma FileStep(classify: Path -> Bucket, unknownOf: Path -> set<string>, knownOf: Path -> set<string>,
                 files: seq<Path>, p: Path)
    ensures forall b :: Keep(classify, files + [p], b) == Keep(classify, files, b) + (if classify(p) == b then [p] else [])
    ensures Collect(unknownOf, files + [p]) == Collect(unknownOf, files) + unknownOf(p)
    ensures Collect(knownOf, files + [p]) == Collect(knownOf, files) + knownOf(p)
  {
    forall b ensures Keep(classify, files + [p], b) == Keep(classify, files, b) + (if classify(p) == b then [p] else []) {
      KeepConcat(classify, files, [p], b);
    }
    CollectConcat(unknownOf, files, [p]);
    CollectConcat(knownOf, files, [p]);
  }

  /** The path of a file found in `folder` is classified by the extension of its name. */
  lemma NewFile(folder: Path, name: string)
    ensures var ext, p := GetExtension(name), folder + [name];
            ClassifyPath(p) == BucketOf(ext) && UnknownExt(p) == Unknown(ext) && KnownExt(p) == Known(ext)
  {
    assert PathName(folder + [name]) == name;
  }

  /** A directory listing queued for scanning, with the path it was found at. */
  datatype Listing = Listing(path: Path, entries: seq<Node>)

  /** The files listed directly in a directory. */
  function DirectFiles(folder: Path, entries: seq<Node>): (r: seq<Path>)
  {
    if entries == [] then []
    else (if entries[0].File? then [folder + [entries[0].name]] else [])
         + DirectFiles(folder, entries[1..])
  }

  /** The listing the scan queues for one entry: one for a directory it enters, none otherwise. */
  function Queued(folder: Path, n: Node): (r: seq<Listing>)
  {
    if n.Dir? && !IsReserved(n.name) then [Listing(folder + [n.name], n.children)] else []
  }

  /** The subdirectories of a directory that the scan queues: every one not reserved. */
  function SubListings(folder: Path, entries: seq<Node>): (r: seq<Listing>)
  {
    if entries == [] then []
    else Queued(folder, entries[0]) + SubListings(folder, entries[1..])
  }

  function ListingPaths(ls: seq<Listing>): (r: seq<Path>)
  {
    if ls == [] then [] else [ls[0].path] + ListingPaths(ls[1..])
  }

  /** Reference for a complete scan: every file below `folder` that has no reserved directory
      on the way to it, depth first. */
  function ScannedFiles(folder: Path, entries: seq<Node>): (r: seq<Path>)
    decreases entries
  {
    if entries == [] then [] else NodeScannedFiles(folder, entries[0]) + ScannedFiles(folder, entries[1..])
  }

  function NodeScannedFiles(folder: Path, n: Node): (r: seq<Path>)
    decreases n
  {
    match n
    case File(name) => [folder + [name]]
    case Dir(name, children) =>
      if IsReserved(name) then [] else ScannedFiles(folder + [name], children)
  }

  /** Reference for a complete scan: every directory recorded in `folders`. */
  function ScannedFolders(folder: Path, entries: seq<Node>): (r: seq<Path>)
    decreases entries
  {
    if entries == [] then [] else NodeScannedFolders(folder, entries[0]) + ScannedFolders(folder, entries[1..])
  }

  function NodeScannedFolders(folder: Path, n: Node): (r: seq<Path>)
    decreases n
  {
    match n
    case File(_) => []
    case Dir(name, children) =>
      if IsReserved(name) then [] else [folder + [name]] + ScannedFolders(folder + [name], children)
  }

  /** What the queued listings will still contribute to the buckets and to `folders`. */
  function PendingFiles(ls: seq<Listing>): (r: seq<Path>)
  {
    if ls == [] then [] else ScannedFiles(ls[0].path, ls[0].entries) + PendingFiles(ls[1..])
  }

  function PendingFolders(ls: seq<Listing>): (r: seq<Path>)
  {
    if ls == [] then [] else ScannedFolders(ls[0].path, ls[0].entries) + PendingFolders(ls[1..])
  }

  /** The work left in a worklist: its listings and every node in them. */
  function Work(ls: seq<Listing>): (r: nat)
  {
    if ls == [] then 0 else 1 + Size(ls[0].entries) + Work(ls[1..])
  }

  /** No reserved directory anywhere in the listing. */
  predicate NoReservedDirs(entries: seq<Node>)
    decreases entries
  {
    entries == [] || (NodeNoReservedDirs(entries[0]) && NoReservedDirs(entries[1..]))
  }

  predicate NodeNoReservedDirs(n: Node)
    decreases n
  {
    match n
    case File(_) => true
    case Dir(name, children) => !IsReserved(name) && NoReservedDirs(children)
  }

  /** None of the names of `p` at positions `from` up to, but not including, `to` is reserved. */
  predicate ReservedFree(p: Path, from: int, to: int)
  {
    forall k :: from <= k < to && 0 <= k < |p| ==> !IsReserved(p[k])
  }

  /** No directory between `folder` and the file `q` has a reserved name. */
  predicate OutsideReserved(folder: Path, q: Path)
  {
    ReservedFree(q, |folder|, |q| - 1)
  }

  /** Peeling the first name off a reserved-free stretch of a path. */
  lemma ReservedFreeStep(p: Path, from: nat, to: int)
    requires from < to <= |p|
    ensures ReservedFree(p, from, to) <==> !IsReserved(p[from]) && ReservedFree(p, from + 1, to)
  {
  }

  lemma {:induction false} DirectFilesConcat(folder: Path, a: seq<Node>, b: seq<Node>)
    ensures DirectFiles(folder, a + b) == DirectFiles(folder, a) + DirectFiles(folder, b)
    decreases a
  {
    if a == [] {
      assert a + b == b;
    } else {
      ConcatHeadTail(a, b);
      DirectFilesConcat(folder, a[1..], b);
      AppendAssoc(if a[0].File? then [folder + [a[0].name]] else [], DirectFiles(folder, a[1..]), DirectFiles(folder, b));
    }
  }

  lemma {:induction false} SubListingsConcat(folder: Path, a: seq<Node>, b: seq<Node>)
    ensures SubListings(folder, a + b) == SubListings(folder, a) + SubListings(folder, b)
    decreases a
  {
    if a == [] {
      assert a + b == b;
    } else {
      ConcatHeadTail(a, b);
      SubListingsConcat(folder, a[1..], b);
      AppendAssoc(Queued(folder, a[0]), SubListings(folder, a[1..]), SubListings(folder, b));
    }
  }

  lemma {:induction false} ListingPathsConcat(a: seq<Listing>, b: seq<Listing>)
    ensures ListingPaths(a + b) == ListingPaths(a) + ListingPaths(b)
    decreases a
  {
    if a == [] {
      assert a + b == b;
    } else {
      ConcatHeadTail(a, b);
      ListingPathsConcat(a[1..], b);
      AppendAssoc([a[0].path], ListingPaths(a[1..]), ListingPaths(b));
    }
  }

  lemma {:induction false} PendingFilesConcat(a: seq<Listing>, b: seq<Listing>)
    ensures PendingFiles(a + b) == PendingFiles(a) + PendingFiles(b)
    decreases a
  {
    if a == [] {
      assert a + b == b;
    } else {
      ConcatHeadTail(a, b);
      PendingFilesConcat(a[1..], b);
      AppendAssoc(ScannedFiles(a[0].path, a[0].entries), PendingFiles(a[1..]), PendingFiles(b));
    }
  }

  lemma {:induction false} PendingFoldersConcat(a: seq<Listing>, b: seq<Listing>)
    ensures PendingFolders(a + b) == PendingFolders(a) + PendingFolders(b)
    decreases a
  {
    if a == [] {
      assert a + b == b;
    } else {
      ConcatHeadTail(a, b);
      PendingFoldersConcat(a[1..], b);
      AppendAssoc(ScannedFolders(a[0].path, a[0].entries), PendingFolders(a[1..]), PendingFolders(b));
    }
  }

  lemma {:induction false} WorkConcat(a: seq<Listing>, b: seq<Listing>)
    ensures Work(a + b) == Work(a) + Work(b)
    decreases a
  {
    if a == [] {
      assert a + b == b;
    } else {
      ConcatHeadTail(a, b);
      WorkConcat(a[1..], b);
    }
  }

  /** Scanning one directory's listing and then everything it queues yields the complete scan
      of that directory's files, up to order. */
  lemma {:induction false} ScanSplitFiles(folder: Path, entries: seq<Node>)
    ensures multiset(ScannedFiles(folder, entries)) ==
              multiset(DirectFiles(folder, entries)) + multiset(PendingFiles(SubListings(folder, entries)))
    decreases entries
  {
    if entries != [] {
      var e, rest := entries[0], entries[1..];
      ScanSplitFiles(folder, rest);
      var head, tail := Queued(folder, e), SubListings(folder, rest);
      PendingFilesConcat(head, tail);
      var own := NodeScannedFiles(folder, e);
      var direct := if e.File? then [folder + [e.name]] else [];
      assert multiset(own) == multiset(direct) + multiset(PendingFiles(head)) by {
        if head != [] {
          assert PendingFiles(head) == ScannedFiles(folder + [e.name], e.children) + PendingFiles([]);
        }
      }
      SumSwap(multiset(direct), multiset(PendingFiles(head)),
              multiset(DirectFiles(folder, rest)), multiset(PendingFiles(tail)));
    }
  }

  /** The same for the directories recorded in `folders`: those queued directly and those
      their complete scans record. */
  lemma {:induction false} ScanSplitFolders(folder: Path, entries: seq<Node>)
    ensures multiset(ScannedFolders(folder, entries)) ==
              multiset(ListingPaths(SubListings(folder, entries)))
              + multiset(PendingFolders(SubListings(folder, entries)))
    decreases entries
  {
    if entries != [] {
      var e, rest := entries[0], entries[1..];
      ScanSplitFolders(folder, rest);
      var head, tail := Queued(folder, e), SubListings(folder, rest);
      PendingFoldersConcat(head, tail);
      ListingPathsConcat(head, tail);
      var own := NodeScannedFolders(folder, e);
      assert multiset(own) == multiset(ListingPaths(head)) + multiset(PendingFolders(head)) by {
        if head != [] {
          assert PendingFolders(head) == ScannedFolders(folder + [e.name], e.children) + PendingFolders([]);
          assert ListingPaths(head) == [folder + [e.name]] + ListingPaths([]);
        }
      }
      SumSwap(multiset(ListingPaths(head)), multiset(PendingFolders(head)),
              multiset(ListingPaths(tail)), multiset(PendingFolders(tail)));
    }
  }

  /** A directory queues no more work than its listing holds. */
  lemma {:induction false} SubListingsWork(folder: Path, entries: seq<Node>)
    ensures Work(SubListings(folder, entries)) <= Size(entries)
    decreases entries
  {
    if entries != [] {
      var e, rest := entries[0], entries[1..];
      SubListingsWork(folder, rest);
      var head := Queued(folder, e);
      assert SubListings(folder, entries) == head + SubListings(folder, rest);
      WorkConcat(head, SubListings(folder, rest));
    }
  }

  /** Scanning the first listing of a worklist and queueing what it finds keeps the files
      and folders still to come the same, and strictly decreases the work left. */
  lemma WorkStep(next: Listing, rest: seq<Listing>, files: seq<Path>, dirs: seq<Path>)
    ensures var queued := SubListings(next.path, next.entries);
            && multiset(files + DirectFiles(next.path, next.entries)) + multiset(PendingFiles(rest + queued))
               == multiset(files) + multiset(PendingFiles([next] + rest))
            && multiset(dirs + ListingPaths(queued)) + multiset(PendingFolders(rest + queued))
               == multiset(dirs) + multiset(PendingFolders([next] + rest))
            && Work(rest + queued) < Work([next] + rest)
  {
    var queued := SubListings(next.path, next.entries);
    ScanSplitFiles(next.path, next.entries);
    ScanSplitFolders(next.path, next.entries);
    SubListingsWork(next.path, next.entries);
    PendingFilesConcat([next], rest);
    PendingFoldersConcat([next], rest);
    WorkConcat([next], rest);
    PendingFilesConcat(rest, queued);
    PendingFoldersConcat(rest, queued);
    WorkConcat(rest, queued);
    assert PendingFiles([next]) == ScannedFiles(next.path, next.entries) + PendingFiles([]);
    assert PendingFolders([next]) == ScannedFolders(next.path, next.entries) + PendingFolders([]);
    Rebalance(files, DirectFiles(next.path, next.entries), PendingFiles(rest), PendingFiles(queued),
              ScannedFiles(next.path, next.entries));
    Rebalance(dirs, ListingPaths(queued), PendingFolders(rest), PendingFolders(queued),
              ScannedFolders(next.path, next.entries));
  }

  /** The complete scan finds exactly the files of the tree that lie outside every reserved
      directory. */
  lemma {:induction false} ScannedFilesExactly(folder: Path, entries: seq<Node>, q: Path)
    ensures q in ScannedFiles(folder, entries) <==>
              q in AllFiles(folder, entries) && OutsideReserved(folder, q)
    decreases entries
  {
    if entries != [] {
      ScannedFilesExactly(folder, entries[1..], q);
      match entries[0]
      case File(name) =>
        if q == folder + [name] {
          assert OutsideReserved(folder, q);
        }
      case Dir(name, children) =>
        var sub := folder + [name];
        ScannedFilesExactly(sub, children, q);
        if q in AllFiles(sub, children) {
          FilesBelow(sub, children, q);
          assert q[|folder|] == q[..|sub|][|folder|] == name;
          ReservedFreeStep(q, |folder|, |q| - 1);
          assert OutsideReserved(folder, q) <==> !IsReserved(name) && OutsideReserved(sub, q);
        }
    }
  }

  /** The complete scan records exactly the directories of the tree that are not reserved and
      lie outside every reserved directory. */
  lemma {:induction false} ScannedFoldersExactly(folder: Path, entries: seq<Node>, p: Path)
    ensures p in ScannedFolders(folder, entries) <==>
              p in AllDirs(folder, entries) && ReservedFree(p, |folder|, |p|)
    decreases entries
  {
    if entries != [] {
      ScannedFoldersExactly(folder, entries[1..], p);
      match entries[0]
      case File(name) =>
      case Dir(name, children) =>
        var sub := folder + [name];
        ScannedFoldersExactly(sub, children, p);
        if p == sub {
          assert p[|folder|] == name;
          ReservedFreeStep(p, |folder|, |p|);
        } else if p in AllDirs(sub, children) {
          DirsBelow(sub, children, p);
          assert p[|folder|] == p[..|sub|][|folder|] == name;
          ReservedFreeStep(p, |folder|, |p|);
        }
    }
  }

  /** In a tree without reserved directories the scan finds every file and every directory. */
  lemma {:induction false} ScanCoversUnreservedTree(folder: Path, entries: seq<Node>)
    requires NoReservedDirs(entries)
    ensures ScannedFiles(folder, entries) == AllFiles(folder, entries)
    ensures ScannedFolders(folder, entries) == AllDirs(folder, entries)
    decreases entries
  {
    if entries != [] {
      ScanCoversUnreservedTree(folder, entries[1..]);
      match entries[0]
      case File(_) =>
      case Dir(name, children) =>
        ScanCoversUnreservedTree(folder + [name], children);
    }
  }

  /** The classification state: the six buckets, the extension sets and the folder record. */
  class Classification {
    var images: seq<Path>
    var documents: seq<Path>
    var audio: seq<Path>
    var video: seq<Path>
    var archives: seq<Path>
    var others: seq<Path>
    var unknown: set<string>
    var extensions: set<string>
    var folders: seq<Path>
    /** Every file path filed so far, in filing order. */
    ghost var seen: seq<Path>
    /** ClassifyPath, UnknownExt and KnownExt, held as values: Tied equates them point by
        point, so proofs about the buckets need not unfold the extension of every path filed
        before. */
    ghost const classify: Path -> Bucket
    ghost const unknownOf: Path -> set<string>
    ghost const knownOf: Path -> set<string>

    function Files(b: Bucket): (r: seq<Path>)
      reads this`images, this`documents, this`audio, this`video, this`archives, this`others
    {
      match b
      case Filed(Images) => images
      case Filed(Documents) => documents
      case Filed(Audio) => audio
      case Filed(Video) => video
      case Filed(Archives) => archives
      case Others => others
    }

    function TotalFiles(): (r: nat)
      reads this`images, this`documents, this`audio, this`video, this`archives, this`others
    {
      |images| + |documents| + |audio| + |video| + |archives| + |others|
    }

    ghost predicate Tied()
    {
      && (forall p {:trigger ClassifyPath(p)} :: classify(p) == ClassifyPath(p))
      && (forall p {:trigger UnknownExt(p)} :: unknownOf(p) == UnknownExt(p))
      && (forall p {:trigger KnownExt(p)} :: knownOf(p) == KnownExt(p))
    }

    /** Each bucket holds exactly the filed paths that belong in it, in filing order; the
        extension sets are those of the filed paths; no reserved directory is recorded. */
    ghost predicate Valid()
      reads this
    {
      && Tied()
      && (forall b :: Files(b) == Keep(classify, seen, b))
      && unknown == Collect(unknownOf, seen)
      && extensions == Collect(knownOf, seen)
      && (forall p :: p in folders ==> !IsReserved(PathName(p)))
    }

    constructor ()
      ensures Valid()
      ensures seen == [] && folders == [] && unknown == {} && extensions == {}
      ensures forall b :: Files(b) == []
    {
      images, documents, audio, video, archives, others := [], [], [], [], [], [];
      unknown, extensions := {}, {};
      folders := [];
      seen := [];
      classify, unknownOf, knownOf := ClassifyPath, UnknownExt, KnownExt;
    }

    /** Filing one regular file found in `folder` (the file branch of the loop in `scan`). */
    method AddFile(folder: Path, name: string)
      requires Valid()
      modifies this
      ensures Valid()
      ensures seen == old(seen) + [folder + [name]]
      ensures folders == old(folders)
      ensures forall b :: Files(b) == old(Files(b)) + (if b == ClassifyName(name) then [folder + [name]] else [])
      ensures TotalFiles() == old(TotalFiles()) + 1
      ensures GetExtension(name) == "" ==>
                ClassifyName(name) == Others && unknown == old(unknown) && extensions == old(extensions)
      ensures GetExtension(name) in Registered ==>
                ClassifyName(name) == Filed(Registered[GetExtension(name)])
                && extensions == old(extensions) + {GetExtension(name)} && unknown == old(unknown)
      ensures GetExtension(name) != "" && GetExtension(name) !in Registered ==>
                ClassifyName(name) == Others
                && unknown == old(unknown) + {GetExtension(name)} && extensions == old(extensions)
    {
      var ext := GetExtension(name);
      NewFile(folder, name);
      BucketCases(ext);
      Record(ext, folder + [name]);
    }

    /** The file branch once the extension `ext` of the new path `p` is known: `others` when
        it is empty; the table's bucket, recording `ext` in `extensions`, when it is
        registered; `others`, recording `ext` in `unknown`, when it is not. */
    method Record(ext: string, p: Path)
      requires Valid()
      requires classify(p) == BucketOf(ext) && unknownOf(p) == Unknown(ext) && knownOf(p) == Known(ext)
      modifies this
      ensures Valid()
      ensures seen == old(seen) + [p]
      ensures folders == old(folders)
      ensures forall b :: Files(b) == old(Files(b)) + (if b == BucketOf(ext) then [p] else [])
      ensures TotalFiles() == old(TotalFiles()) + 1
      ensures unknown == old(unknown) + Unknown(ext) && extensions == old(extensions) + Known(ext)
    {
      var bucket := Others;
      if ext == "" {
      } else if ext in Registered {
        extensions := extensions + {ext};
        bucket := Filed(Registered[ext]);
      } else {
        unknown := unknown + {ext};
      }
      assert bucket == BucketOf(ext);
      assert unknown == old(unknown) + Unknown(ext) && extensions == old(extensions) + Known(ext);
      Store(bucket, p);
    }

    /** Appends `p` to bucket `k` and counts it as filed; the extension sets must already
        hold what `p` adds to them. */
    method Store(k: Bucket, p: Path)
      requires Tied() && classify(p) == k
      requires forall b :: Files(b) == Keep(classify, seen, b)
      requires unknown == Collect(unknownOf, seen) + unknownOf(p)
      requires extensions == Collect(knownOf, seen) + knownOf(p)
      requires forall q :: q in folders ==> !IsReserved(PathName(q))
      modifies this
      ensures Valid()
      ensures seen == old(seen) + [p] && folders == old(folders)
      ensures forall b :: Files(b) == old(Files(b)) + (if b == k then [p] else [])
      ensures TotalFiles() == old(TotalFiles()) + 1
      ensures unknown == old(unknown) && extensions == old(extensions)
    {
      FileStep(classify, unknownOf, knownOf, seen, p);
      Append(k, p);
      seen := seen + [p];
    }

    /** `container.append(p)` on one bucket. */
    method Append(k: Bucket, p: Path)
      modifies this
      ensures forall b :: Files(b) == old(Files(b)) + (if b == k then [p] else [])
      ensures TotalFiles() == old(TotalFiles()) + 1
      ensures unknown == old(unknown) && extensions == old(extensions)
      ensures folders == old(folders) && seen == old(seen)
    {
      match k
      case Filed(Images) => images := images + [p];
      case Filed(Documents) => documents := documents + [p];
      case Filed(Audio) => audio := audio + [p];
      case Filed(Video) => video := video + [p];
      case Filed(Archives) => archives := archives + [p];
      case Others => others := others + [p];
    }

    /** One entry of a listing (the body of the loop in `scan`): a reserved directory is
        skipped, any other directory is recorded and queued, a file is filed. */
    method ProcessEntry(folder: Path, item: Node) returns (queued: seq<Listing>)
      requires Valid()
      modifies this
      ensures Valid()
      ensures seen == old(seen) + DirectFiles(folder, [item])
      ensures queued == SubListings(folder, [item])
      ensures folders == old(folders) + ListingPaths(queued)
      ensures item.Dir? ==>
                (forall b :: Files(b) == old(Files(b))) && unknown == old(unknown) && extensions == old(extensions)
      ensures item.Dir? && IsReserved(item.name) ==> queued == [] && folders == old(folders)
      ensures item.Dir? && !IsReserved(item.name) ==>
                queued == [Listing(folder + [item.name], item.children)]
                && folders == old(folders) + [folder + [item.name]]
      ensures item.File? ==>
                queued == [] && folders == old(folders)
                && forall b :: Files(b) == old(Files(b)) + (if b == ClassifyName(item.name) then [folder + [item.name]] else [])
    {
      match item
      case Dir(name, children) =>
        queued := [];
        if !IsReserved(name) {
          var path := folder + [name];
          assert PathName(path) == name;
          folders := folders + [path];
          queued := [Listing(path, children)];
        }
      case File(name) =>
        AddFile(folder, name);
        queued := [];
    }

    /** The `for item in folder.iterdir()` loop of `scan` over one directory listing; returns
        the subdirectory listings it starts scans for. */
    method ScanFolder(folder: Path, entries: seq<Node>) returns (queued: seq<Listing>)
      requires Valid()
      modifies this
      ensures Valid()
      ensures seen == old(seen) + DirectFiles(folder, entries)
      ensures queued == SubListings(folder, entries)
      ensures folders == old(folders) + ListingPaths(queued)
    {
      queued := [];
      for i := 0 to |entries|
        invariant Valid()
        invariant seen == old(seen) + DirectFiles(folder, entries[..i])
        invariant queued == SubListings(folder, entries[..i])
        invariant folders == old(folders) + ListingPaths(queued)
      {
        var more := ProcessEntry(folder, entries[i]);
        TakeOneMore(entries, i);
        DirectFilesConcat(folder, entries[..i], [entries[i]]);
        SubListingsConcat(folder, entries[..i], [entries[i]]);
        ListingPathsConcat(queued, more);
        AppendAssoc(old(seen), DirectFiles(folder, entries[..i]), DirectFiles(folder, [entries[i]]));
        AppendAssoc(old(folders), ListingPaths(queued), ListingPaths(more));
        queued := queued + more;
      }
      assert entries[..|entries|] == entries;
    }

    /** The whole scan from `root` (the scan thread started by `main` and every thread it
        starts), run to completion: the buckets, the extension sets and the folder record gain
        exactly what the complete scan of the root listing finds, up to order. */
    method Scan(root: Path, entries: seq<Node>)
      requires Valid()
      modifies this
      ensures Valid()
      ensures multiset(seen) == multiset(old(seen)) + multiset(ScannedFiles(root, entries))
      ensures multiset(folders) == multiset(old(folders)) + multiset(ScannedFolders(root, entries))
      ensures forall b :: multiset(Files(b)) ==
                multiset(old(Files(b))) + multiset(Select(ScannedFiles(root, entries), b))
      ensures unknown == old(unknown) + UnknownOf(ScannedFiles(root, entries))
      ensures extensions == old(extensions) + KnownOf(ScannedFiles(root, entries))
      ensures TotalFiles() == old(TotalFiles()) + |ScannedFiles(root, entries)|
    {
      CountFiled();
      var worklist := [Listing(root, entries)];
      ghost var found := ScannedFiles(root, entries);
      assert PendingFiles(worklist) == found;
      assert PendingFolders(worklist) == ScannedFolders(root, entries);
      while worklist != []
        invariant Valid()
        invariant multiset(seen) + multiset(PendingFiles(worklist)) == multiset(old(seen)) + multiset(found)
        invariant multiset(folders) + multiset(PendingFolders(worklist)) ==
                    multiset(old(folders)) + multiset(ScannedFolders(root, entries))
        decreases Work(worklist)
      {
        var next := worklist[0];
        HeadTail(worklist);
        WorkStep(next, worklist[1..], seen, folders);
        var queued := ScanFolder(next.path, next.entries);
        worklist := worklist[1..] + queued;
      }
      Settled(old(seen), found);
      CountFiled();
      assert |seen| == |multiset(seen)|;
    }

    /** Every path filed so far is in exactly one bucket, so the buckets together hold as many
        paths as have been filed. */
    lemma CountFiled()
      requires Valid()
      ensures TotalFiles() == |seen|
    {
      KeepPartition(classify, seen);
    }

    /** Once the files filed are, up to order, those of `before` followed by `found`, each bucket
        holds, up to order, what `before` put in it and the files of `found` that belong
        there, and the two sets hold the extensions of `before` and those of `found`. */
    lemma Settled(before: seq<Path>, found: seq<Path>)
      requires Valid()
      requires multiset(seen) == multiset(before + found)
      ensures forall b :: multiset(Files(b)) == multiset(Keep(classify, before, b)) + multiset(Select(found, b))
      ensures unknown == Collect(unknownOf, before) + UnknownOf(found)
      ensures extensions == Collect(knownOf, before) + KnownOf(found)
    {
      KeepAgreeAll(found);
      forall b ensures multiset(Files(b)) == multiset(Keep(classify, before, b)) + multiset(Select(found, b)) {
        KeepPermutation(classify, seen, before + found, b);
        KeepConcat(classify, before, found, b);
      }
      forall p ensures p in seen <==> p in before + found {
        assert p in seen <==> p in multiset(seen);
        assert p in before + found <==> p in multiset(before + found);
      }
      CollectSameMembers(unknownOf, seen, before + found);
      CollectSameMembers(knownOf, seen, before + found);
      CollectConcat(unknownOf, before, found);
      CollectConcat(knownOf, before, found);
      CollectAgree(unknownOf, UnknownExt, found);
      CollectAgree(knownOf, KnownExt, found);
    }

    lemma KeepAgreeAll(files: seq<Path>)
      requires Tied()
      ensures forall b :: Keep(classify, files, b) == Select(files, b)
    {
      forall b ensures Keep(classify, files, b) == Select(files, b) {
        KeepAgree(classify, ClassifyPath, files, b);
      }
    }
  }
}
