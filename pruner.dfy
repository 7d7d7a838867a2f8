/** The clean-up pass (remove_empty_folders and get_folder_objects in homework/threading_hw.py)
    over the in-memory tree: depth-first, a directory is removed once its own subdirectories
    have been processed and it has nothing left in it.  Removing a non-empty directory fails and
    the failure is ignored, so such a directory simply stays. */
module Pruner {
  import opened Tree
  import opened Sequences

  /** The listing of a directory after remove_empty_folders has run on it: each subdirectory is
      pruned first and then dropped when its pruned listing is empty; files stay where they are. */
  function RemoveEmptyFolders(entries: seq<Node>): (r: seq<Node>)
    ensures NoEmptyDirs(r)
    decreases entries
  {
    if entries == [] then []
    else
      var head, tail := PruneEntry(entries[0]), RemoveEmptyFolders(entries[1..]);
      NoEmptyDirsConcat(head, tail);
      head + tail
  }

  /** One entry of the loop: a file is kept, a directory is pruned and then kept only if that
      left it non-empty (the rmdir that succeeds only on an empty directory). */
  function PruneEntry(n: Node): (r: seq<Node>)
    ensures NoEmptyDirs(r)
    decreases n
  {
    match n
    case File(_) => [n]
    case Dir(name, children) =>
      var kept := RemoveEmptyFolders(children);
      if kept == [] then [] else [Dir(name, kept)]
  }

  /** What get_folder_objects leaves behind: the pruned root directory, or the failure of
      listing a root that is not a directory at all. */
  datatype Outcome = Pruned(root: Node) | NotADirectory

  /** get_folder_objects: the root's listing pruned as above; the root itself is never removed. */
  function GetFolderObjects(root: Node): (r: Outcome)
    ensures root.File? <==> r == NotADirectory
    ensures root.Dir? ==>
              && r.Pruned? && r.root.Dir? && r.root.name == root.name
              && NoEmptyDirs(r.root.children)
              && AllFiles([], r.root.children) == AllFiles([], root.children)
              && (forall p, q :: q in AllFiles([], root.children) && Encloses([], p, q) ==>
                    p in AllDirs([], r.root.children))
              && (forall p :: p in AllDirs([], r.root.children) ==> p in AllDirs([], root.children))
  {
    match root
    case File(_) => NotADirectory
    case Dir(name, children) =>
      var kept := RemoveEmptyFolders(children);
      PruneKeepsFiles([], children);
      forall p, q | q in AllFiles([], children) && Encloses([], p, q)
        ensures p in AllDirs([], kept)
      {
        EnclosingDirListed([], children, p, q);
        PruneKeptDirs([], children, p);
      }
      forall p | p in AllDirs([], kept)
        ensures p in AllDirs([], children)
      {
        PruneKeptDirs([], children, p);
      }
      Pruned(Dir(name, kept))
  }

  lemma {:induction false} NoEmptyDirsConcat(a: seq<Node>, b: seq<Node>)
    ensures NoEmptyDirs(a + b) <==> NoEmptyDirs(a) && NoEmptyDirs(b)
    decreases a
  {
    if a != [] {
      ConcatHeadTail(a, b);
      NoEmptyDirsConcat(a[1..], b);
    } else {
      assert a + b == b;
    }
  }

  lemma {:induction false} AllFilesConcat(folder: Path, a: seq<Node>, b: seq<Node>)
    ensures AllFiles(folder, a + b) == AllFiles(folder, a) + AllFiles(folder, b)
    decreases a
  {
    if a != [] {
      ConcatHeadTail(a, b);
      AllFilesConcat(folder, a[1..], b);
    } else {
      assert a + b == b;
    }
  }

  lemma {:induction false} AllDirsConcat(folder: Path, a: seq<Node>, b: seq<Node>)
    ensures AllDirs(folder, a + b) == AllDirs(folder, a) + AllDirs(folder, b)
    decreases a
  {
    if a != [] {
      ConcatHeadTail(a, b);
      AllDirsConcat(folder, a[1..], b);
    } else {
      assert a + b == b;
    }
  }

  /** No file is removed: the pruned tree holds exactly the same file paths, in the same order. */
  lemma {:induction false} PruneKeepsFiles(folder: Path, entries: seq<Node>)
    ensures AllFiles(folder, RemoveEmptyFolders(entries)) == AllFiles(folder, entries)
    decreases entries
  {
    if entries != [] {
      AllFilesConcat(folder, PruneEntry(entries[0]), RemoveEmptyFolders(entries[1..]));
      PruneKeepsFiles(folder, entries[1..]);
      match entries[0]
      case File(_) =>
      case Dir(name, children) =>
        PruneKeepsFiles(folder + [name], children);
    }
  }

  /** A non-empty listing without empty directories holds at least one file. */
  lemma {:induction false} NonEmptyListingHasFile(folder: Path, entries: seq<Node>)
    requires NoEmptyDirs(entries) && entries != []
    ensures AllFiles(folder, entries) != []
    decreases entries
  {
    match entries[0]
    case File(_) =>
    case Dir(name, children) =>
      NonEmptyListingHasFile(folder + [name], children);
  }

  /** A directory's listing prunes to nothing exactly when no file lies anywhere beneath it. */
  lemma PruneEmptyIffNoFiles(folder: Path, entries: seq<Node>)
    ensures RemoveEmptyFolders(entries) == [] <==> AllFiles(folder, entries) == []
  {
    PruneKeepsFiles(folder, entries);
    if RemoveEmptyFolders(entries) != [] {
      NonEmptyListingHasFile(folder, RemoveEmptyFolders(entries));
    }
  }

  /** In a tree without empty directories every directory has a file somewhere beneath it. */
  lemma {:induction false} DirHasFile(folder: Path, entries: seq<Node>, p: Path)
    requires NoEmptyDirs(entries)
    requires p in AllDirs(folder, entries)
    ensures exists q :: q in AllFiles(folder, entries) && Encloses(folder, p, q)
    decreases entries
  {
    AllFilesConcat(folder, [entries[0]], entries[1..]);
    assert [entries[0]] + entries[1..] == entries;
    if p in NodeDirs(folder, entries[0]) {
      match entries[0]
      case File(_) =>
      case Dir(name, children) =>
        var sub := folder + [name];
        assert AllFiles(folder, [entries[0]]) == AllFiles(sub, children);
        if p == sub {
          NonEmptyListingHasFile(sub, children);
          var q := AllFiles(sub, children)[0];
          FilesBelow(sub, children, q);
          assert q[..|folder|] == q[..|sub|][..|folder|];
          assert Encloses(folder, p, q);
        } else {
          DirsBelow(sub, children, p);
          DirHasFile(sub, children, p);
          var q :| q in AllFiles(sub, children) && Encloses(sub, p, q);
          assert p[..|folder|] == p[..|sub|][..|folder|];
          assert Encloses(folder, p, q);
        }
    } else {
      DirHasFile(folder, entries[1..], p);
      var q :| q in AllFiles(folder, entries[1..]) && Encloses(folder, p, q);
      assert q in AllFiles(folder, entries);
    }
  }

  /** A directory survives pruning exactly when it was in the tree and some file lies beneath it. */
  lemma PruneKeptDirs(folder: Path, entries: seq<Node>, p: Path)
    ensures p in AllDirs(folder, RemoveEmptyFolders(entries)) <==>
              p in AllDirs(folder, entries) &&
              exists q :: q in AllFiles(folder, entries) && Encloses(folder, p, q)
  {
    var kept := RemoveEmptyFolders(entries);
    PruneKeepsFiles(folder, entries);
    if p in AllDirs(folder, kept) {
      DirHasFile(folder, kept, p);
      var q :| q in AllFiles(folder, kept) && Encloses(folder, p, q);
      EnclosingDirListed(folder, entries, p, q);
    }
    if exists q :: q in AllFiles(folder, entries) && Encloses(folder, p, q) {
      var q :| q in AllFiles(folder, entries) && Encloses(folder, p, q);
      EnclosingDirListed(folder, kept, p, q);
    }
  }

  /** Pruning leaves a tree without empty directories unchanged. */
  lemma {:induction false} PruneIdentity(entries: seq<Node>)
    requires NoEmptyDirs(entries)
    ensures RemoveEmptyFolders(entries) == entries
    decreases entries
  {
    if entries != [] {
      PruneIdentity(entries[1..]);
      match entries[0]
      case File(_) =>
      case Dir(name, children) =>
        PruneIdentity(children);
    }
  }

  /** Running the clean-up a second time changes nothing. */
  lemma PruneIdempotent(entries: seq<Node>)
    ensures RemoveEmptyFolders(RemoveEmptyFolders(entries)) == RemoveEmptyFolders(entries)
  {
    PruneIdentity(RemoveEmptyFolders(entries));
  }
}
