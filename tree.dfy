/** An in-memory directory tree standing in for the filesystem: what Path.iterdir lists and
    Path.is_dir reports.  A directory's listing is the sequence of its entries. */
module Tree {

  /** A path as the sequence of its components below some starting folder. */
  type Path = seq<string>

  datatype Node = File(name: string) | Dir(name: string, children: seq<Node>)

  /** The last component of a path (Path.name); "" for the empty path. */
  function PathName(p: Path): (r: string)
  {
    if p == [] then "" else p[|p| - 1]
  }

  /** Every file path in a listing found below `folder`, in depth-first order. */
  function AllFiles(folder: Path, entries: seq<Node>): (r: seq<Path>)
    decreases entries
  {
    if entries == [] then [] else NodeFiles(folder, entries[0]) + AllFiles(folder, entries[1..])
  }

  function NodeFiles(folder: Path, n: Node): (r: seq<Path>)
    decreases n
  {
    match n
    case File(name) => [folder + [name]]
    case Dir(name, children) => AllFiles(folder + [name], children)
  }

  /** Every directory path in a listing below `folder`, each before the directories inside it. */
  function AllDirs(folder: Path, entries: seq<Node>): (r: seq<Path>)
    decreases entries
  {
    if entries == [] then [] else NodeDirs(folder, entries[0]) + AllDirs(folder, entries[1..])
  }

  function NodeDirs(folder: Path, n: Node): (r: seq<Path>)
    decreases n
  {
    match n
    case File(_) => []
    case Dir(name, children) => [folder + [name]] + AllDirs(folder + [name], children)
  }

  /** `p` names a directory strictly between `folder` and the file path `q`. */
  predicate Encloses(folder: Path, p: Path, q: Path)
  {
    |folder| < |p| < |q| && q[..|p|] == p && p[..|folder|] == folder
  }

  /** Every directory beneath a listing has at least one entry. */
  predicate NoEmptyDirs(entries: seq<Node>)
    decreases entries
  {
    entries == [] || (NodeNoEmptyDirs(entries[0]) && NoEmptyDirs(entries[1..]))
  }

  predicate NodeNoEmptyDirs(n: Node)
    decreases n
  {
    match n
    case File(_) => true
    case Dir(_, children) => children != [] && NoEmptyDirs(children)
  }

  /** The number of nodes in a listing, counting every nested entry. */
  function Size(entries: seq<Node>): (r: nat)
    decreases entries
  {
    if entries == [] then 0 else NodeSize(entries[0]) + Size(entries[1..])
  }

  function NodeSize(n: Node): (r: nat)
    decreases n
  {
    match n
    case File(_) => 1
    case Dir(_, children) => 1 + Size(children)
  }

  /** Every file path found below `folder` begins with `folder` and is longer than it. */
  lemma {:induction false} FilesBelow(folder: Path, entries: seq<Node>, q: Path)
    requires q in AllFiles(folder, entries)
    ensures |q| > |folder| && q[..|folder|] == folder
    decreases entries
  {
    if q in NodeFiles(folder, entries[0]) {
      match entries[0]
      case File(name) =>
      case Dir(name, children) =>
        FilesBelow(folder + [name], children, q);
    } else {
      FilesBelow(folder, entries[1..], q);
    }
  }

  /** Every directory path found below `folder` begins with `folder` and is longer than it. */
  lemma {:induction false} DirsBelow(folder: Path, entries: seq<Node>, p: Path)
    requires p in AllDirs(folder, entries)
    ensures |p| > |folder| && p[..|folder|] == folder
    decreases entries
  {
    if p in NodeDirs(folder, entries[0]) {
      match entries[0]
      case File(name) =>
      case Dir(name, children) =>
        if p != folder + [name] {
          DirsBelow(folder + [name], children, p);
        }
    } else {
      DirsBelow(folder, entries[1..], p);
    }
  }

  /** Every directory strictly between `folder` and a file found below it is itself listed:
      the tree is closed under prefixes of file paths. */
  lemma {:induction false} EnclosingDirListed(folder: Path, entries: seq<Node>, p: Path, q: Path)
    requires q in AllFiles(folder, entries)
    requires Encloses(folder, p, q)
    ensures p in AllDirs(folder, entries)
    decreases entries
  {
    if q in NodeFiles(folder, entries[0]) {
      match entries[0]
      case File(name) =>
      case Dir(name, children) =>
        var sub := folder + [name];
        FilesBelow(sub, children, q);
        if p != sub {
          assert |p| > |sub| by {
            assert p[..|sub|] == q[..|sub|] == sub;
          }
          assert p[..|sub|] == sub by {
            assert q[..|p|][..|sub|] == q[..|sub|];
          }
          EnclosingDirListed(sub, children, p, q);
        }
    } else {
      EnclosingDirListed(folder, entries[1..], p, q);
    }
  }
}
