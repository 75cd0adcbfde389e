/** The workspace directory as a tree of named entries. */
module WorkspaceTree {
  import opened Wrappers
  import opened WorkspacePath

  /**
   * A file entry holds an inode number; the contents live beside the tree, as
   * on a disk, so that replacing an entry does not touch what an open handle reads.
   */
  type Bytes = seq<bv8>
  type Disk = map<nat, Bytes>

  datatype Node = File(inode: nat) | Dir(entries: seq<Entry>) | Link | Device
  datatype Entry = Entry(name: string, node: Node)
  datatype FileRef = FileRef(path: Path, inode: nat)

  function Find(es: seq<Entry>, name: string): (r: int)
    ensures -1 <= r < |es|
    ensures r >= 0 ==> es[r].name == name && forall i | 0 <= i < r :: es[i].name != name
    ensures r < 0 ==> forall i | 0 <= i < |es| :: es[i].name != name
  {
    if es == [] then -1
    else if es[0].name == name then 0
    else
      var r := Find(es[1..], name);
      if r < 0 then -1 else r + 1
  }

  function Lookup(es: seq<Entry>, path: Path): Option<Node>
    requires path != []
    decreases |path|
  {
    var i := Find(es, path[0]);
    if i < 0 then None
    else if |path| == 1 then Some(es[i].node)
    else match es[i].node
         case Dir(sub) => Lookup(sub, path[1..])
         case _ => None
  }

  /** The inode a path names, if it names a regular file. */
  function FileAt(es: seq<Entry>, path: Path): Option<nat>
    requires path != []
  {
    match Lookup(es, path)
    case Some(File(inode)) => Some(inode)
    case _ => None
  }

  /** Every directory on the way to the last name exists. */
  predicate HasParents(es: seq<Entry>, path: Path)
    requires path != []
    decreases |path|
  {
    |path| == 1
    || (var i := Find(es, path[0]); i >= 0 && es[i].node.Dir? && HasParents(es[i].node.entries, path[1..]))
  }

  /** Puts a node in place of what the path names, or beside its siblings. */
  function Put(es: seq<Entry>, path: Path, node: Node): seq<Entry>
    requires path != [] && HasParents(es, path)
    decreases |path|
  {
    var i := Find(es, path[0]);
    if |path| == 1 then (if i < 0 then es + [Entry(path[0], node)] else es[i := Entry(path[0], node)])
    else es[i := Entry(path[0], Dir(Put(es[i].node.entries, path[1..], node)))]
  }

  function Remove(es: seq<Entry>, path: Path): seq<Entry>
    requires path != [] && HasParents(es, path)
    decreases |path|
  {
    var i := Find(es, path[0]);
    if |path| == 1 then (if i < 0 then es else es[..i] + es[i + 1..])
    else es[i := Entry(path[0], Dir(Remove(es[i].node.entries, path[1..])))]
  }

  /** Names are unique in every directory and inodes were handed out before `next`. */
  ghost predicate WellFormed(es: seq<Entry>, next: nat)
    decreases es
  {
    && (forall i, j | 0 <= i < j < |es| :: es[i].name != es[j].name)
    && (forall i | 0 <= i < |es| :: NodeWellFormed(es[i].node, next))
  }

  ghost predicate NodeWellFormed(node: Node, next: nat)
    decreases node
  {
    match node
    case File(inode) => inode < next
    case Dir(sub) => WellFormed(sub, next)
    case _ => true
  }

  // ---------------------------------------------------- finding after a change

  lemma FindIs(es: seq<Entry>, name: string, k: int)
    requires -1 <= k < |es|
    requires k >= 0 ==> es[k].name == name && forall i | 0 <= i < k :: es[i].name != name
    requires k < 0 ==> forall i | 0 <= i < |es| :: es[i].name != name
    ensures Find(es, name) == k
  {
  }

  lemma FindAfterUpdate(es: seq<Entry>, i: nat, node: Node, name: string)
    requires i < |es|
    ensures Find(es[i := Entry(es[i].name, node)], name) == Find(es, name)
  {
    hide Find;
    var r := es[i := Entry(es[i].name, node)];
    assert forall j | 0 <= j < |es| :: r[j].name == es[j].name;
    FindIs(r, name, Find(es, name));
  }

  lemma FindAfterAppend(es: seq<Entry>, e: Entry, name: string)
    requires Find(es, e.name) < 0
    ensures Find(es + [e], name) == if name == e.name then |es| else Find(es, name)
  {
    hide Find;
    var r := es + [e];
    assert forall k | 0 <= k < |es| :: r[k] == es[k];
    FindIs(r, name, if name == e.name then |es| else Find(es, name));
  }

  lemma FindAfterRemove(es: seq<Entry>, i: nat, name: string)
    requires i < |es| && forall j, k | 0 <= j < k < |es| :: es[j].name != es[k].name
    ensures var r := es[..i] + es[i + 1..]; var k := Find(es, name);
            Find(r, name) == if k < 0 || k == i then -1 else if k < i then k else k - 1
  {
    hide Find;
    var r := es[..i] + es[i + 1..];
    var k := Find(es, name);
    assert forall j | 0 <= j < |r| :: r[j] == if j < i then es[j] else es[j + 1];
    FindIs(r, name, if k < 0 || k == i then -1 else if k < i then k else k - 1);
  }

  // ------------------------------------------------- what paths name afterwards

  /** The change of one entry: a file or nothing gives way to a file or an empty directory. */
  predicate Plain(node: Node) {
    node.File? || node == Dir([])
  }

  function InodeOf(node: Node): Option<nat> {
    match node
    case File(inode) => Some(inode)
    case _ => None
  }

  /** FileAt, one name at a time. */
  lemma FileAtStep(es: seq<Entry>, q: Path)
    requires q != []
    ensures var i := Find(es, q[0]);
            FileAt(es, q) ==
            if i < 0 then None
            else if |q| == 1 then InodeOf(es[i].node)
            else if es[i].node.Dir? then FileAt(es[i].node.entries, q[1..])
            else None
  {
  }

  lemma NoFileInEmpty(q: Path)
    requires q != []
    ensures FileAt([], q) == None
  {
  }

  lemma SamePath(path: Path, q: Path)
    requires path != [] && q != []
    ensures q == path <==> q[0] == path[0] && q[1..] == path[1..]
  {
    assert q == [q[0]] + q[1..] && path == [path[0]] + path[1..];
  }

  /** Putting a file or an empty directory changes what one path names, and no other. */
  lemma {:induction false} FileAtAfterPut(es: seq<Entry>, path: Path, node: Node, q: Path)
    requires path != [] && q != [] && HasParents(es, path) && Plain(node)
    requires Lookup(es, path) == None || FileAt(es, path).Some?
    ensures FileAt(Put(es, path, node), q) == if q == path then InodeOf(node) else FileAt(es, q)
    decreases |path|
  {
    hide FileAt, Find;
    var i := Find(es, path[0]);
    var r := Put(es, path, node);
    SamePath(path, q);
    FileAtStep(es, path);
    FileAtStep(es, q);
    FileAtStep(r, q);
    if |path| == 1 {
      if i < 0 { FindAfterAppend(es, Entry(path[0], node), q[0]); } else { FindAfterUpdate(es, i, node, q[0]); }
      if q[0] == path[0] && |q| > 1 { NoFileInEmpty(q[1..]); }
    } else {
      var sub := es[i].node.entries;
      FindAfterUpdate(es, i, Dir(Put(sub, path[1..], node)), q[0]);
      if q[0] == path[0] && |q| > 1 { FileAtAfterPut(sub, path[1..], node, q[1..]); }
    }
  }

  lemma {:induction false} FileAtAfterRemove(es: seq<Entry>, path: Path, next: nat, q: Path)
    requires path != [] && q != [] && HasParents(es, path) && FileAt(es, path).Some? && WellFormed(es, next)
    ensures FileAt(Remove(es, path), q) == if q == path then None else FileAt(es, q)
    decreases |path|
  {
    hide FileAt, Find;
    var i := Find(es, path[0]);
    var r := Remove(es, path);
    SamePath(path, q);
    FileAtStep(es, path);
    FileAtStep(es, q);
    FileAtStep(r, q);
    if |path| == 1 {
      FindAfterRemove(es, i, q[0]);
    } else {
      var sub := es[i].node.entries;
      FindAfterUpdate(es, i, Dir(Remove(sub, path[1..])), q[0]);
      assert NodeWellFormed(es[i].node, next);
      if q[0] == path[0] && |q| > 1 { FileAtAfterRemove(sub, path[1..], next, q[1..]); }
    }
  }

  lemma {:induction false} WellFormedAfterPut(es: seq<Entry>, path: Path, node: Node, next: nat)
    requires path != [] && HasParents(es, path) && WellFormed(es, next) && NodeWellFormed(node, next)
    ensures WellFormed(Put(es, path, node), next)
    decreases |path|
  {
    var i := Find(es, path[0]);
    if |path| == 1 {
    } else {
      assert NodeWellFormed(es[i].node, next);
      WellFormedAfterPut(es[i].node.entries, path[1..], node, next);
    }
  }

  lemma WithoutOneWellFormed(es: seq<Entry>, i: nat, next: nat)
    requires i < |es| && WellFormed(es, next)
    ensures WellFormed(es[..i] + es[i + 1..], next)
  {
    hide NodeWellFormed;
    var r := es[..i] + es[i + 1..];
    assert forall j | 0 <= j < |r| :: r[j] == if j < i then es[j] else es[j + 1];
  }

  lemma WayDown(es: seq<Entry>, path: Path)
    requires |path| > 1 && HasParents(es, path)
    ensures var i := Find(es, path[0]); i >= 0 && es[i].node.Dir? && HasParents(es[i].node.entries, path[1..])
  {
    hide Find;
  }

  lemma {:induction false} WellFormedAfterRemove(es: seq<Entry>, path: Path, next: nat)
    requires path != [] && HasParents(es, path) && WellFormed(es, next)
    ensures WellFormed(Remove(es, path), next)
    decreases |path|
  {
    hide Find, HasParents;
    var i := Find(es, path[0]);
    if |path| == 1 {
      if i >= 0 { WithoutOneWellFormed(es, i, next); }
    } else {
      WayDown(es, path);
      assert NodeWellFormed(es[i].node, next);
      WellFormedAfterRemove(es[i].node.entries, path[1..], next);
    }
  }

  lemma {:induction false} WellFormedGrows(es: seq<Entry>, next: nat, later: nat)
    requires WellFormed(es, next) && next <= later
    ensures WellFormed(es, later)
    decreases es
  {
    forall i | 0 <= i < |es| ensures NodeWellFormed(es[i].node, later) {
      assert NodeWellFormed(es[i].node, next);
      if es[i].node.Dir? { WellFormedGrows(es[i].node.entries, next, later); }
    }
  }

  lemma {:induction false} InodeBelow(es: seq<Entry>, path: Path, next: nat)
    requires path != [] && WellFormed(es, next) && FileAt(es, path).Some?
    ensures FileAt(es, path).value < next
    decreases |path|
  {
    var i := Find(es, path[0]);
    assert NodeWellFormed(es[i].node, next);
    if |path| == 1 {
    } else {
      InodeBelow(es[i].node.entries, path[1..], next);
    }
  }

  /** A file on the way, or its absence, does not take a directory away. */
  lemma {:induction false} ParentsAfterPut(es: seq<Entry>, path: Path, node: Node, q: Path)
    requires path != [] && q != [] && HasParents(es, path) && HasParents(es, q) && Plain(node)
    requires Lookup(es, path) == None || FileAt(es, path).Some?
    ensures HasParents(Put(es, path, node), q)
    decreases |path|
  {
    hide Find;
    if |q| == 1 {
    } else {
      var i := Find(es, path[0]);
      if i < 0 {
        FindAfterAppend(es, Entry(path[0], node), q[0]);
      } else if |path| == 1 {
        FindAfterUpdate(es, i, node, q[0]);
      } else {
        FindAfterUpdate(es, i, Dir(Put(es[i].node.entries, path[1..], node)), q[0]);
        if q[0] == path[0] { ParentsAfterPut(es[i].node.entries, path[1..], node, q[1..]); }
      }
    }
  }

  lemma ParentsAfterRemoveHere(es: seq<Entry>, path: Path, next: nat, q: Path)
    requires |path| == 1 && |q| > 1 && HasParents(es, q) && FileAt(es, path).Some? && WellFormed(es, next)
    ensures HasParents(Remove(es, path), q)
  {
    hide Find, NodeWellFormed, HasParents, FileAt, Remove;
    var i, k := Find(es, path[0]), Find(es, q[0]);
    WayDown(es, q);
    FileHere(es, path);
    var r := es[..i] + es[i + 1..];
    FindAfterRemove(es, i, q[0]);
    assert r[if k < i then k else k - 1] == es[k];
    WayUp(r, q);
  }

  lemma FileHere(es: seq<Entry>, path: Path)
    requires |path| == 1 && FileAt(es, path).Some?
    ensures var i := Find(es, path[0]); i >= 0 && es[i].node.File? && Remove(es, path) == es[..i] + es[i + 1..]
  {
    hide Find;
  }

  lemma WayUp(es: seq<Entry>, path: Path)
    requires |path| > 1
    requires var i := Find(es, path[0]); i >= 0 && es[i].node.Dir? && HasParents(es[i].node.entries, path[1..])
    ensures HasParents(es, path)
  {
    hide Find;
  }

  lemma {:induction false} ParentsAfterRemove(es: seq<Entry>, path: Path, next: nat, q: Path)
    requires path != [] && q != [] && HasParents(es, path) && HasParents(es, q)
    requires FileAt(es, path).Some? && WellFormed(es, next)
    ensures HasParents(Remove(es, path), q)
    decreases |path|
  {
    hide Find;
    if |q| == 1 {
    } else {
      var i := Find(es, path[0]);
      if |path| == 1 {
        ParentsAfterRemoveHere(es, path, next, q);
      } else {
        FindAfterUpdate(es, i, Dir(Remove(es[i].node.entries, path[1..])), q[0]);
        assert NodeWellFormed(es[i].node, next);
        if q[0] == path[0] { ParentsAfterRemove(es[i].node.entries, path[1..], next, q[1..]); }
      }
    }
  }

  // ----------------------------------------------------- the way to a name

  /** Nothing on the way to the path, as far as it exists, keeps it from naming a regular file. */
  predicate Passable(es: seq<Entry>, path: Path)
    requires path != []
    decreases |path|
  {
    var i := Find(es, path[0]);
    || i < 0
    || (if |path| == 1 then es[i].node.File? else es[i].node.Dir? && Passable(es[i].node.entries, path[1..]))
  }

  lemma {:induction false} PassableLeadsToFile(es: seq<Entry>, path: Path)
    requires path != [] && Passable(es, path)
    ensures Lookup(es, path) == None || FileAt(es, path).Some?
    decreases |path|
  {
    hide Find;
    var i := Find(es, path[0]);
    if i < 0 || |path| == 1 {
    } else {
      PassableLeadsToFile(es[i].node.entries, path[1..]);
    }
  }

  lemma {:induction false} PassableAfterPut(es: seq<Entry>, path: Path, node: Node, q: Path)
    requires path != [] && |path| <= |q| && path != q && HasParents(es, path) && Passable(es, q)
    requires node == Dir([]) || (node.File? && |path| == |q|)
    requires Lookup(es, path) == None || FileAt(es, path).Some?
    ensures Passable(Put(es, path, node), q)
    decreases |path|
  {
    hide Find;
    var i := Find(es, path[0]);
    SamePath(path, q);
    if |path| == 1 {
      if i < 0 { FindAfterAppend(es, Entry(path[0], node), q[0]); } else { FindAfterUpdate(es, i, node, q[0]); }
      if q[0] == path[0] && |q| > 1 { assert Find([], q[1]) < 0; }
    } else {
      FindAfterUpdate(es, i, Dir(Put(es[i].node.entries, path[1..], node)), q[0]);
      if q[0] == path[0] { PassableAfterPut(es[i].node.entries, path[1..], node, q[1..]); }
    }
  }

  lemma {:induction false} PassableAfterRemove(es: seq<Entry>, path: Path, next: nat, q: Path)
    requires path != [] && |path| == |q| && path != q && HasParents(es, path) && Passable(es, q)
    requires FileAt(es, path).Some? && WellFormed(es, next)
    ensures Passable(Remove(es, path), q)
    decreases |path|
  {
    hide Find;
    var i := Find(es, path[0]);
    SamePath(path, q);
    if |path| == 1 {
      FindAfterRemove(es, i, q[0]);
    } else {
      FindAfterUpdate(es, i, Dir(Remove(es[i].node.entries, path[1..])), q[0]);
      assert NodeWellFormed(es[i].node, next);
      if q[0] == path[0] { PassableAfterRemove(es[i].node.entries, path[1..], next, q[1..]); }
    }
  }

  /** On a passable way the next directory is there or missing, never something else. */
  lemma {:induction false} PassablePrefix(es: seq<Entry>, path: Path, k: nat)
    requires 1 <= k < |path| && Passable(es, path)
    ensures Lookup(es, path[..k]) == None || (Lookup(es, path[..k]).Some? && Lookup(es, path[..k]).value.Dir?)
    decreases |path|
  {
    hide Find;
    var i := Find(es, path[0]);
    if k <= 1 || i < 0 {
    } else {
      assert path[..k][1..] == path[1..][..k - 1];
      PassablePrefix(es[i].node.entries, path[1..], k - 1);
    }
  }

  /** A directory found where its own parents exist is one more parent on the way. */
  lemma {:induction false} ParentsDeeper(es: seq<Entry>, path: Path, k: nat)
    requires 1 <= k < |path| && HasParents(es, path[..k])
    requires Lookup(es, path[..k]).Some? && Lookup(es, path[..k]).value.Dir?
    ensures HasParents(es, path[..k + 1])
    decreases k
  {
    hide Find;
    assert path[..k][0] == path[0] && path[..k + 1][0] == path[0];
    if k > 1 {
      var i := Find(es, path[0]);
      assert path[..k][1..] == path[1..][..k - 1];
      assert path[..k + 1][1..] == path[1..][..k];
      ParentsDeeper(es[i].node.entries, path[1..], k - 1);
    } else {
      assert path[..k + 1][1..] == [path[1]];
    }
  }

  lemma {:induction false} ParentsOfSibling(es: seq<Entry>, path: Path, q: Path)
    requires path != [] && |q| == |path| && q[..|q| - 1] == path[..|path| - 1] && HasParents(es, path)
    ensures HasParents(es, q)
    decreases |path|
  {
    hide Find;
    if |path| == 1 {
    } else {
      assert q[0] == q[..|q| - 1][0] && path[0] == path[..|path| - 1][0];
      assert q[1..][..|q| - 2] == q[..|q| - 1][1..] && path[1..][..|path| - 2] == path[..|path| - 1][1..];
      ParentsOfSibling(es[Find(es, path[0])].node.entries, path[1..], q[1..]);
    }
  }

  lemma {:induction false} LookupAfterPut(es: seq<Entry>, path: Path, node: Node)
    requires path != [] && HasParents(es, path)
    ensures Lookup(Put(es, path, node), path) == Some(node)
    decreases |path|
  {
    hide Find;
    var i := Find(es, path[0]);
    if |path| == 1 {
      if i < 0 { FindAfterAppend(es, Entry(path[0], node), path[0]); } else { FindAfterUpdate(es, i, node, path[0]); }
    } else {
      FindAfterUpdate(es, i, Dir(Put(es[i].node.entries, path[1..], node)), path[0]);
      LookupAfterPut(es[i].node.entries, path[1..], node);
    }
  }

  /** A new empty directory holds nothing of what was missing. */
  lemma {:induction false} StillMissing(es: seq<Entry>, path: Path, q: Path)
    requires path != [] && |path| < |q| && HasParents(es, path) && Lookup(es, path) == None && Lookup(es, q) == None
    ensures Lookup(Put(es, path, Dir([])), q) == None
    decreases |path|
  {
    hide Find;
    var i := Find(es, path[0]);
    if |path| == 1 {
      FindAfterAppend(es, Entry(path[0], Dir([])), q[0]);
      if q[0] == path[0] { assert Find([], q[1]) < 0; }
    } else {
      FindAfterUpdate(es, i, Dir(Put(es[i].node.entries, path[1..], Dir([]))), q[0]);
      if q[0] == path[0] { StillMissing(es[i].node.entries, path[1..], q[1..]); }
    }
  }

  /** Taking out what was put where nothing was gives the tree back. */
  lemma {:induction false} RemoveUndoesPut(es: seq<Entry>, path: Path, node: Node)
    requires path != [] && HasParents(es, path) && Lookup(es, path) == None
    ensures HasParents(Put(es, path, node), path) && Remove(Put(es, path, node), path) == es
    decreases |path|
  {
    hide Find;
    var i := Find(es, path[0]);
    if |path| == 1 {
      FindAfterAppend(es, Entry(path[0], node), path[0]);
      assert (es + [Entry(path[0], node)])[..|es|] == es;
    } else {
      var sub := es[i].node.entries;
      var put := Put(sub, path[1..], node);
      FindAfterUpdate(es, i, Dir(put), path[0]);
      RemoveUndoesPut(sub, path[1..], node);
      assert es[i := Entry(path[0], Dir(put))][i := Entry(path[0], Dir(sub))] == es;
    }
  }

  /** What is below a missing name is missing. */
  lemma {:induction false} MissingBelow(es: seq<Entry>, path: Path, k: nat)
    requires 1 <= k <= |path| && Lookup(es, path[..k]) == None
    ensures Lookup(es, path) == None
    decreases |path|
  {
    hide Find;
    assert path[..k][0] == path[0];
    var i := Find(es, path[0]);
    if k <= 1 || i < 0 || !es[i].node.Dir? {
    } else {
      assert path[..k][1..] == path[1..][..k - 1];
      MissingBelow(es[i].node.entries, path[1..], k - 1);
    }
  }

  lemma {:induction false} FileHasParents(es: seq<Entry>, path: Path)
    requires path != [] && FileAt(es, path).Some?
    ensures HasParents(es, path)
    decreases |path|
  {
    hide Find;
    if |path| == 1 {
    } else {
      FileHasParents(es[Find(es, path[0])].node.entries, path[1..]);
    }
  }
}
