/** The application archive of `simple/data.py`: snapshot a data directory without its
    credentials, and restore such a snapshot over a directory that kept its own. */
module DataArchive {
  import opened Options

  const LIMIT := 512 * 1024 * 1024

  type Path = seq<string>
  datatype Node = Dir(mode: nat) | File(bytes: seq<int>, mode: nat) | Link | Special

  /** A directory's content: every path below it, by its components. */
  type Tree = map<Path, Node>
  datatype Entry = Entry(path: Path, node: Node)

  predicate PrivatePart(part: string) {
    ".env" <= part || "auth.json" <= part || "credentials" <= part
  }

  /** `private`: some component names a credential location. */
  predicate Private(p: Path) {
    exists i :: 0 <= i < |p| && PrivatePart(p[i])
  }

  lemma PublicAbove(q: Path, k: nat)
    requires !Private(q) && k <= |q|
    ensures !Private(q[..k])
  {
    forall i | 0 <= i < k ensures !PrivatePart(q[..k][i]) {
      assert q[..k][i] == q[i];
    }
  }

  function Parent(p: Path): Path
    requires p != []
  {
    p[..|p| - 1]
  }

  ghost predicate WellFormed(t: Tree) {
    forall p :: p in t ==> p != [] && ".." !in p && (|p| > 1 ==> Parent(p) in t && t[Parent(p)].Dir?)
  }

  /** `p` is a proper ancestor of `q`. */
  predicate Above(p: Path, q: Path) {
    p < q
  }

  predicate HoldsPrivate(t: Tree, p: Path) {
    exists q :: q in t && Above(p, q) && Private(q)
  }

  /** What deletion leaves: private paths, and directories still holding one. */
  predicate Stays(t: Tree, p: Path) {
    p in t && (Private(p) || (t[p].Dir? && HoldsPrivate(t, p)))
  }

  function Kept(t: Tree): Tree {
    map p | p in t && Stays(t, p) :: t[p]
  }

  /** `mode & 0o700` */
  function OwnerBits(mode: nat): nat {
    mode / 64 % 8 * 64
  }

  /** The owner's digit of the mode stays; group, others and the special bits are gone. */
  lemma OwnerBitsOnly(mode: nat)
    ensures OwnerBits(mode) / 64 % 8 == mode / 64 % 8
    ensures OwnerBits(mode) % 8 == 0 && OwnerBits(mode) / 8 % 8 == 0 && OwnerBits(mode) / 512 == 0
  {
  }

  /** Nobody but the owner may do anything with this file or directory. */
  predicate OwnerOnly(n: Node) {
    match n
    case Dir(m) => m % 8 == 0 && m / 8 % 8 == 0 && m / 512 == 0
    case File(_, m) => m % 8 == 0 && m / 8 % 8 == 0 && m / 512 == 0
    case _ => true
  }

  function Masked(n: Node): (r: Node)
    ensures OwnerOnly(r)
  {
    match n
    case Dir(m) => Dir(OwnerBits(m))
    case File(b, m) => File(b, OwnerBits(m))
    case _ => n
  }

  /* ---------- snapshot ---------- */

  function Size(es: seq<Entry>): nat {
    if es == [] then 0
    else Size(es[..|es| - 1]) + Bytes(es[|es| - 1].node)
  }

  lemma ShallowestExists(s: set<Path>) returns (p: Path)
    requires s != {}
    ensures p in s && forall q :: q in s ==> |p| <= |q|
  {
    p :| p in s;
    if s != {p} {
      var q := ShallowestExists(s - {p});
      if |q| < |p| { p := q; }
    }
  }

  lemma DeepestExists(s: set<Path>) returns (p: Path)
    requires s != {}
    ensures p in s && forall q :: q in s ==> |q| <= |p|
  {
    p :| p in s;
    if s != {p} {
      var q := DeepestExists(s - {p});
      if |q| > |p| { p := q; }
    }
  }

  /** `es` archives the public paths of `t` outside `todo`. */
  ghost predicate Archives(es: seq<Entry>, t: Tree, todo: set<Path>) {
    && (forall i :: 0 <= i < |es| ==> es[i].path in t && es[i].path !in todo && !Private(es[i].path)
                                      && es[i].node == t[es[i].path] && (es[i].node.Dir? || es[i].node.File?))
    && (forall i, j :: 0 <= i < j < |es| ==> es[i].path != es[j].path)
    && (forall p :: p in t && p !in todo && !Private(p) ==> Archived(es, p))
    && ParentsFirst(es)
  }

  ghost predicate ParentsFirst(es: seq<Entry>) {
    forall i :: 0 <= i < |es| && |es[i].path| > 1 ==> Earlier(es, i, Parent(es[i].path))
  }

  ghost predicate Archived(es: seq<Entry>, p: Path) {
    Earlier(es, |es|, p)
  }

  ghost predicate Earlier(es: seq<Entry>, i: nat, p: Path)
    requires i <= |es|
  {
    exists j :: 0 <= j < i && es[j].path == p
  }

  lemma EarlierKept(es: seq<Entry>, e: Entry, i: nat, p: Path)
    requires i <= |es|
    ensures Earlier(es, i, p) <==> Earlier(es + [e], i, p)
  {
    var all := es + [e];
    forall j | 0 <= j < i ensures all[j] == es[j] {
    }
    if Earlier(es, i, p) {
      var j :| 0 <= j < i && es[j].path == p;
      assert all[j].path == p;
    }
  }

  lemma ArchiveNext(es: seq<Entry>, t: Tree, todo: set<Path>, p: Path)
    requires WellFormed(t) && Archives(es, t, todo) && p in todo && p in t
    requires !Private(p) && (t[p].Dir? || t[p].File?) && (|p| > 1 ==> Parent(p) !in todo)
    ensures Archives(es + [Entry(p, t[p])], t, todo - {p})
  {
    var e := Entry(p, t[p]);
    var all := es + [e];
    forall q | q in t && q !in todo - {p} && !Private(q) ensures Archived(all, q) {
      AppendedLast(es, e, q);
      assert q != p ==> Archived(es, q);
    }
    if |p| > 1 {
      PublicAbove(p, |p| - 1);
      assert Archived(es, Parent(p));
    }
    ParentsNext(es, e);
  }

  lemma ParentsNext(es: seq<Entry>, e: Entry)
    requires ParentsFirst(es) && (|e.path| > 1 ==> Archived(es, Parent(e.path)))
    ensures ParentsFirst(es + [e])
  {
    var all := es + [e];
    forall i | 0 <= i < |all| && |all[i].path| > 1 ensures Earlier(all, i, Parent(all[i].path)) {
      assert i < |es| ==> all[i] == es[i];
      EarlierKept(es, e, i, Parent(all[i].path));
    }
  }

  lemma AppendedLast(es: seq<Entry>, e: Entry, p: Path)
    ensures Archived(es + [e], p) <==> Archived(es, p) || e.path == p
  {
    EarlierKept(es, e, |es|, p);
    var all := es + [e];
    assert all[|es|] == e;
    if Earlier(all, |es|, p) {
      var j :| 0 <= j < |es| && all[j].path == p;
      assert Earlier(all, |all|, p);
    }
  }

  function Bytes(n: Node): nat {
    match n case File(b, _) => |b| case _ => 0
  }

  ghost function Public(t: Tree): set<Path> {
    set p | p in t && !Private(p)
  }

  /** The bytes of the files among these paths. */
  ghost function Total(t: Tree, s: set<Path>): nat
    requires s <= t.Keys
  {
    if s == {} then 0
    else
      var p :| p in s;
      Bytes(t[p]) + Total(t, s - {p})
  }

  lemma {:induction false} TotalSplit(t: Tree, s: set<Path>, p: Path)
    requires s <= t.Keys && p in s
    ensures Total(t, s) == Bytes(t[p]) + Total(t, s - {p})
    decreases |s|
  {
    var q :| q in s && Total(t, s) == Bytes(t[q]) + Total(t, s - {q});
    if q != p {
      TotalSplit(t, s - {q}, p);
      TotalSplit(t, s - {p}, q);
      assert s - {q} - {p} == s - {p} - {q};
    }
  }

  lemma {:induction false} TotalGrows(t: Tree, a: set<Path>, b: set<Path>)
    requires a <= b <= t.Keys
    ensures Total(t, a) <= Total(t, b)
    decreases |b|
  {
    if b - a == {} {
      assert a == b;
    } else {
      var p :| p in b - a;
      TotalSplit(t, b, p);
      TotalGrows(t, a, b - {p});
    }
  }

  /** What the archive cannot hold. */
  predicate Unsupported(n: Node) {
    n.Link? || n.Special?
  }

  /** A public link or special file, or too many public bytes. */
  ghost predicate Refused(t: Tree) {
    (exists p :: p in Public(t) && Unsupported(t[p])) || Total(t, Public(t)) > LIMIT
  }

  /** `es` archives what has been walked of `t`. */
  ghost predicate Walked(es: seq<Entry>, t: Tree, todo: set<Path>) {
    && Archives(es, t, todo) && Size(es) == Total(t, Public(t) - todo)
    && forall p :: p in Public(t) && p !in todo ==> !Unsupported(t[p])
  }

  lemma WalkPublic(es: seq<Entry>, t: Tree, todo: set<Path>, p: Path)
    requires WellFormed(t) && Walked(es, t, todo) && p in todo && p in Public(t) && (|p| > 1 ==> Parent(p) !in todo)
    requires !Unsupported(t[p])
    ensures Walked(es + [Entry(p, t[p])], t, todo - {p})
  {
    ArchiveNext(es, t, todo, p);
    WalkSize(es, t, todo, p);
  }

  lemma WalkSize(es: seq<Entry>, t: Tree, todo: set<Path>, p: Path)
    requires Size(es) == Total(t, Public(t) - todo) && p in todo && p in Public(t)
    ensures Size(es + [Entry(p, t[p])]) == Total(t, Public(t) - (todo - {p}))
  {
    SizeNext(es, Entry(p, t[p]));
    var rest := Public(t) - (todo - {p});
    TotalSplit(t, rest, p);
    assert rest - {p} == Public(t) - todo;
  }

  lemma WalkPrivate(es: seq<Entry>, t: Tree, todo: set<Path>, p: Path)
    requires Walked(es, t, todo) && p in todo && p in t && Private(p)
    ensures Walked(es, t, todo - {p})
  {
    assert Public(t) - (todo - {p}) == Public(t) - todo;
  }

  lemma WalkedSize(es: seq<Entry>, t: Tree, todo: set<Path>)
    requires Walked(es, t, todo)
    ensures Size(es) <= Total(t, Public(t)) && (todo == {} ==> Size(es) == Total(t, Public(t)))
  {
    TotalGrows(t, Public(t) - todo, Public(t));
    assert todo == {} ==> Public(t) - todo == Public(t);
  }

  /** `snapshot`: refuse links and special files, skip private paths, stop at the limit; it refuses
      exactly for those two reasons. The walk may take any order in which a directory comes before its
      content. */
  method Snapshot(t: Tree) returns (r: Option<seq<Entry>>)
    requires WellFormed(t)
    ensures r.Some? ==> Archives(r.value, t, {}) && Size(r.value) <= LIMIT
    ensures r.None? <==> Refused(t)
  {
    var es: seq<Entry> := [];
    var todo := t.Keys;
    assert Public(t) - todo == {};
    while todo != {}
      invariant todo <= t.Keys && Size(es) <= LIMIT && Walked(es, t, todo)
    {
      ghost var least := ShallowestExists(todo);
      var p :| p in todo && (|p| > 1 ==> Parent(p) !in todo);
      if Private(p) {
        WalkPrivate(es, t, todo, p);
      } else {
        assert p in Public(t);
        if Unsupported(t[p]) { return None; }
        WalkPublic(es, t, todo, p);
        es := es + [Entry(p, t[p])];
        WalkedSize(es, t, todo - {p});
        if Size(es) > LIMIT { return None; }
      }
      todo := todo - {p};
    }
    WalkedSize(es, t, todo);
    r := Some(es);
  }

  lemma SizeNext(es: seq<Entry>, e: Entry)
    ensures Size(es + [e]) == Size(es) + Bytes(e.node)
  {
    assert (es + [e])[..|es|] == es;
  }

  /** `members`: every entry is validated before anything is deleted. */
  predicate MembersValid(es: seq<Entry>) {
    && (forall i :: 0 <= i < |es| ==>
          ".." !in es[i].path && !Private(es[i].path) && (es[i].node.Dir? || es[i].node.File?))
    && (forall i, j :: 0 <= i < j < |es| ==> es[i].path != es[j].path)
    && Size(es) <= LIMIT
  }

  method Members(es: seq<Entry>) returns (ok: bool)
    ensures ok <==> MembersValid(es)
    ensures ok ==> forall i, j :: 0 <= i < j < |es| ==> es[i].path != es[j].path
    ensures ok ==> Size(es) <= LIMIT
    ensures ok ==> forall i :: 0 <= i < |es| ==>
      ".." !in es[i].path && !Private(es[i].path) && (es[i].node.Dir? || es[i].node.File?)
  {
    var seen: set<Path> := {};
    var i := 0;
    while i < |es|
      invariant 0 <= i <= |es|
      invariant MembersValid(es[..i])
      invariant forall p :: p in seen <==> exists j :: 0 <= j < i && es[j].path == p
    {
      var e := es[i];
      assert es[..i + 1][..i] == es[..i];
      if ".." in e.path || Private(e.path) || !(e.node.Dir? || e.node.File?) || e.path in seen {
        return false;
      }
      seen := seen + {e.path};
      if Size(es[..i + 1]) > LIMIT {
        SizeGrows(es, i + 1);
        return false;
      }
      i := i + 1;
    }
    assert es[..i] == es;
    ok := true;
  }

  lemma {:induction false} SizeGrows(es: seq<Entry>, k: nat)
    requires k <= |es|
    ensures Size(es[..k]) <= Size(es)
    decreases |es|
  {
    if k < |es| {
      SizeGrows(es[..|es| - 1], k);
      assert es[..|es| - 1][..k] == es[..k];
    } else {
      assert es[..k] == es;
    }
  }

  /* ---------- restore ---------- */

  class DataRoot {
    var nodes: Tree

    constructor (t: Tree)
      ensures nodes == t
    {
      nodes := t;
    }

    /** The deletion loop: deepest paths first, in any order among equals. A directory is
        removed exactly when it holds no private path, since by then everything else
        below it is gone. */
    method DeletePublic()
      requires WellFormed(nodes)
      modifies this
      ensures nodes == Kept(old(nodes))
    {
      ghost var t := nodes;
      var todo := nodes.Keys;
      while todo != {}
        invariant todo <= t.Keys
        invariant forall p :: p in nodes <==> p in t && (p in todo || Stays(t, p))
        invariant forall p :: p in nodes ==> nodes[p] == t[p]
        invariant forall p, q :: p in todo && q in t && q !in todo ==> |p| <= |q|
      {
        ghost var deepest := DeepestExists(todo);
        var p :| p in todo && forall q :: q in todo ==> |q| <= |p|;
        todo := todo - {p};
        if !Private(p) {
          assert nodes[p] == t[p];
          if nodes[p].Dir? {
            Emptiness(t, nodes, todo, p);
            if !exists q :: q in nodes && Above(p, q) {
              nodes := nodes - {p};
            }
          } else {
            nodes := nodes - {p};
          }
        }
      }
    }

    /** One archive entry written below the root. */
    method WriteEntry(e: Entry) returns (ok: bool)
      requires e.path != [] && (e.node.Dir? || e.node.File?)
      requires |e.path| > 1 ==> Parent(e.path) in nodes
      modifies this
      ensures ok <==>
        && (forall i :: 1 <= i <= |e.path| && e.path[..i] in old(nodes) ==> !old(nodes)[e.path[..i]].Link?)
        && (|e.path| > 1 ==> old(nodes)[Parent(e.path)].Dir?)
        && (e.path in old(nodes) ==> if e.node.Dir? then old(nodes)[e.path].Dir? else !old(nodes)[e.path].Dir?)
      ensures nodes == if ok then old(nodes)[e.path := Masked(e.node)] else old(nodes)
    {
      if exists i :: 1 <= i <= |e.path| && e.path[..i] in nodes && nodes[e.path[..i]].Link? {
        return false;
      }
      if |e.path| > 1 && !nodes[Parent(e.path)].Dir? {
        return false;
      }
      if e.path in nodes && (if e.node.Dir? then !nodes[e.path].Dir? else nodes[e.path].Dir?) {
        return false;
      }
      nodes := nodes[e.path := Masked(e.node)];
      ok := true;
    }

    /** `restore` of a snapshot of `source`. It completes exactly when no file of the
        snapshot stands where the directory keeps a folder holding private paths; the
        result is then the snapshot over everything that had to stay. */
    method Restore(es: seq<Entry>, ghost source: Tree) returns (ok: bool)
      requires WellFormed(nodes) && WellFormed(source)
      requires Archives(es, source, {}) && Size(es) <= LIMIT
      modifies this
      ensures ok <==> Compatible(old(nodes), source)
      ensures ok ==> nodes == Restored(old(nodes), source)
    {
      var valid := Members(es);
      assert valid;
      ghost var t := nodes;
      DeletePublic();
      var i := 0;
      while i < |es|
        invariant 0 <= i <= |es|
        invariant Written(es, Kept(t), nodes, i)
      {
        EntryPrefixes(es, source, t, nodes, i);
        var written := WriteEntry(es[i]);
        if !written {
          assert es[i].path in source && Stays(t, es[i].path);
          return false;
        }
        i := i + 1;
      }
      AllWritten(es, source, t, nodes);
      ok := true;
    }
  }

  /** The tree after the first `i` entries have been written over what stayed. */
  ghost predicate Written(es: seq<Entry>, kept: Tree, nodes: Tree, i: nat)
    requires i <= |es|
  {
    && (forall j :: 0 <= j < i ==> es[j].path in nodes && nodes[es[j].path] == Masked(es[j].node))
    && (forall p :: p in nodes ==> p in kept || Earlier(es, i, p))
    && (forall p :: p in kept ==> p in nodes && (!Earlier(es, i, p) ==> nodes[p] == kept[p]))
    && (forall j :: 0 <= j < i && es[j].node.File? ==> es[j].path !in kept)
  }

  lemma WriteNext(es: seq<Entry>, kept: Tree, nodes: Tree, i: nat)
    requires i < |es| && Written(es, kept, nodes, i)
    requires forall j :: 0 <= j < i ==> es[j].path != es[i].path
    requires es[i].node.File? ==> es[i].path !in kept
    ensures Written(es, kept, nodes[es[i].path := Masked(es[i].node)], i + 1)
  {
    var next := nodes[es[i].path := Masked(es[i].node)];
    forall p ensures Earlier(es, i + 1, p) <==> Earlier(es, i, p) || es[i].path == p {
      assert es[i].path == p ==> Earlier(es, i + 1, p);
    }
    forall j | 0 <= j < i + 1 ensures es[j].path in next && next[es[j].path] == Masked(es[j].node) {
    }
    forall p | p in kept ensures p in next && (!Earlier(es, i + 1, p) ==> next[p] == kept[p]) {
    }
  }

  lemma AllWritten(es: seq<Entry>, source: Tree, t: Tree, nodes: Tree)
    requires Archives(es, source, {}) && Written(es, Kept(t), nodes, |es|)
    ensures nodes == Restored(t, source) && Compatible(t, source)
  {
    var restored := Restored(t, source);
    forall p ensures p in source && !Private(p) <==> Earlier(es, |es|, p) {
      assert p in source && !Private(p) ==> Archived(es, p);
    }
    forall p ensures (p in nodes <==> p in restored) && (p in nodes ==> nodes[p] == restored[p]) {
      if Earlier(es, |es|, p) {
        var j :| 0 <= j < |es| && es[j].path == p;
        assert nodes[p] == Masked(es[j].node);
      }
    }
    forall p | p in source && !Private(p) && source[p].File? ensures !Stays(t, p) {
      var j :| 0 <= j < |es| && es[j].path == p;
      assert p in Kept(t) <==> Stays(t, p);
    }
  }

  lemma Emptiness(t: Tree, nodes: Tree, todo: set<Path>, p: Path)
    requires forall q :: q in nodes <==> q in t && (q in todo || q == p || Stays(t, q))
    requires forall q :: q in todo ==> |q| <= |p|
    requires p in t && t[p].Dir? && !Private(p)
    ensures (exists q :: q in nodes && Above(p, q)) <==> Stays(t, p)
  {
    if q :| q in nodes && Above(p, q) {
      assert q !in todo;
      if !Private(q) {
        var r :| r in t && Above(q, r) && Private(r);
        assert Above(p, r);
      }
    }
    if Stays(t, p) {
      var r :| r in t && Above(p, r) && Private(r);
      assert Stays(t, r);
    }
  }

  /** Every ancestor of an entry about to be written is an ordinary directory. */
  lemma EntryPrefixes(es: seq<Entry>, source: Tree, t: Tree, nodes: Tree, i: nat)
    requires i < |es| && Archives(es, source, {}) && WellFormed(source) && Written(es, Kept(t), nodes, i)
    ensures es[i].path != [] && (es[i].node.Dir? || es[i].node.File?)
    ensures |es[i].path| > 1 ==> Parent(es[i].path) in nodes && nodes[Parent(es[i].path)].Dir?
    ensures forall k :: 1 <= k <= |es[i].path| && es[i].path[..k] in nodes ==> !nodes[es[i].path[..k]].Link?
    ensures es[i].path in nodes ==> Stays(t, es[i].path) && nodes[es[i].path].Dir?
    ensures Stays(t, es[i].path) ==> es[i].path in nodes
    ensures es[i].node.Dir? || es[i].path !in Kept(t) ==>
              Written(es, Kept(t), nodes[es[i].path := Masked(es[i].node)], i + 1)
  {
    var p := es[i].path;
    assert p in source && !Private(p);
    if |p| > 1 {
      assert Earlier(es, i, Parent(p));
      var j :| 0 <= j < i && es[j].path == Parent(p);
      assert es[j].path == Parent(p) && source[Parent(p)].Dir?;
    }
    forall k | 1 <= k <= |p| && p[..k] in nodes ensures !nodes[p[..k]].Link? {
      PublicAbove(p, k);
      if Earlier(es, i, p[..k]) {
        var j :| 0 <= j < i && es[j].path == p[..k];
        assert nodes[p[..k]] == Masked(es[j].node);
      }
    }
    forall j | 0 <= j < i ensures es[j].path != p {
    }
    assert !Earlier(es, i, p);
    if es[i].node.Dir? || p !in Kept(t) {
      WriteNext(es, Kept(t), nodes, i);
    }
  }

  /** No snapshotted file collides with a directory that must stay. */
  ghost predicate Compatible(t: Tree, source: Tree) {
    forall p :: p in source && !Private(p) && source[p].File? ==> !Stays(t, p)
  }

  /** The snapshot's public part over what stays, modes reduced to the owner's bits. */
  ghost function Restored(t: Tree, source: Tree): Tree {
    map p | p in t.Keys + source.Keys && (Stays(t, p) || (p in source && !Private(p))) ::
      if p in source && !Private(p) then Masked(source[p]) else t[p]
  }

  /** A snapshot of one directory restored over another: when it completes, every private
      path is untouched; the public tree has exactly the snapshot's names, kinds, bytes
      and masked modes, plus only directories that hold a private path. */
  method SnapshotThenRestore(source: Tree, target: Tree) returns (done: bool, result: Tree)
    requires WellFormed(source) && WellFormed(target)
    ensures done <==> !Refused(source) && Compatible(target, source)
    ensures done ==> forall p :: Private(p) ==> (p in result <==> p in target)
    ensures done ==> forall p :: Private(p) ==> (p in target ==> result[p] == target[p])
    ensures done ==> forall p :: p in source && !Private(p) ==> p in result && result[p] == Masked(source[p])
    ensures done ==> forall p :: p in source && !Private(p) ==> OwnerOnly(result[p])
    ensures done ==> forall p :: p in result && !Private(p) && p !in source ==> p in target && result[p] == target[p]
    ensures done ==> forall p :: p in result && !Private(p) && p !in source ==> target[p].Dir?
    ensures done ==> forall p :: p in result && !Private(p) && p !in source ==> HoldsPrivate(target, p)
    ensures done ==> forall p :: p in target && target[p].Dir? && HoldsPrivate(target, p) ==> p in result
  {
    var archive := Snapshot(source);
    if archive.None? {
      return false, target;
    }
    var root := new DataRoot(target);
    done := root.Restore(archive.value, source);
    result := root.nodes;
  }
}
