/** Predicting the package inventory (`transaction.py`) and observing it (`gates.py`). */
module Inventory {
  import opened Options
  import opened Text
  import opened Order
  import opened Nevra

  datatype Action = Install | Upgrade | Downgrade | Reinstall | Remove | Replaced | Unsupported
  datatype Record = Record(action: Action, nevra: string, path: Option<string>)

  /** Which of the three sets a record joins. */
  datatype Group = Outgoing | Incoming | Again

  function GroupOf(a: Action): Group {
    if a.Remove? || a.Replaced? then Outgoing else if a.Reinstall? then Again else Incoming
  }

  /** The components of a `PurePosixPath`. */
  function Components(parts: seq<string>): seq<string> {
    if parts == [] then []
    else (if parts[0] == "" || parts[0] == "." then [] else [parts[0]]) + Components(parts[1..])
  }

  /** The accepted form of `package_path`: exactly `packages/<name>.rpm`. */
  function Stored(raw: string): Option<string> {
    var parts := Components(Split(raw, '/'));
    if raw == "" || raw[0] == '/' || '\\' in raw || |parts| != 2 || parts[0] != "packages"
       || parts[1] == ".." || |parts[1]| <= 4 || parts[1][|parts[1]| - 4..] != ".rpm"
    then None
    else Some("packages/" + parts[1])
  }

  /** What a well-formed record contributes; `path` is present for incoming packages. */
  datatype Entry = Entry(group: Group, name: string, path: Option<string>)

  function Resolve(r: Record): Option<Entry> {
    var n := Normalize(r.nevra);
    if r.action.Unsupported? || n.None? then None
    else if GroupOf(r.action).Outgoing? then
      (if r.path.None? then Some(Entry(Outgoing, n.value, None)) else None)
    else if r.path.None? || Stored(r.path.value).None? then None
    else Some(Entry(GroupOf(r.action), n.value, Stored(r.path.value)))
  }

  /** Every element mapped, or nothing if one is refused. */
  function MapAll<A, B>(f: A -> Option<B>, xs: seq<A>): Option<seq<B>> {
    if xs == [] then Some([])
    else
      match (f(xs[0]), MapAll(f, xs[1..]))
      case (Some(y), Some(ys)) => Some([y] + ys)
      case _ => None
  }

  function ResolveAll(rs: seq<Record>): Option<seq<Entry>> {
    MapAll(Resolve, rs)
  }

  /** The names listed in the stored inventory. */
  function BeforeNames(before: string): Option<seq<string>> {
    if before == "" || before[|before| - 1] != '\n' then None else MapAll(Normalize, SplitLines(before))
  }

  /* ---------- which records and inventories are well formed ---------- */

  lemma {:induction false} MapAllExactly<A, B>(f: A -> Option<B>, xs: seq<A>)
    ensures MapAll(f, xs).Some? <==> forall i :: 0 <= i < |xs| ==> f(xs[i]).Some?
    ensures MapAll(f, xs).Some? ==> |MapAll(f, xs).value| == |xs|
    ensures MapAll(f, xs).Some? ==> forall i :: 0 <= i < |xs| ==> f(xs[i]) == Some(MapAll(f, xs).value[i])
  {
    if xs != [] {
      MapAllExactly(f, xs[1..]);
      assert forall i :: 0 < i < |xs| ==> xs[i] == xs[1..][i - 1];
    }
  }

  /** The name of a stored package file. */
  predicate PackageFile(name: string) {
    |name| > 4 && name[|name| - 4..] == ".rpm" && name != ".." && '/' !in name && '\\' !in name
  }

  predicate Removes(a: Action) {
    a == Remove || a == Replaced
  }

  predicate Installs(a: Action) {
    a == Install || a == Upgrade || a == Downgrade
  }

  /** A record is accepted if and only if its name is, an outgoing package has no path, and an incoming
      or reinstalled one has an accepted path; it joins the set its action names. */
  lemma ResolvedExactly(r: Record)
    ensures Resolve(r).Some? <==>
      && Normalize(r.nevra).Some? && !r.action.Unsupported?
      && (if Removes(r.action) then r.path.None? else r.path.Some? && Stored(r.path.value).Some?)
    ensures Resolve(r).Some? ==>
      && Normalize(r.nevra) == Some(Resolve(r).value.name)
      && (Resolve(r).value.group.Outgoing? <==> Removes(r.action))
      && (Resolve(r).value.group.Incoming? <==> Installs(r.action))
      && (Resolve(r).value.group.Again? <==> r.action.Reinstall?)
      && Resolve(r).value.path == if Removes(r.action) then None else Stored(r.path.value)
  {
  }

  /** An inventory is accepted if and only if it is there, ends its last line, and lists only accepted
      names; they are read in order. */
  lemma BeforeExactly(before: string)
    ensures BeforeNames(before).Some? <==>
      && before != "" && before[|before| - 1] == '\n'
      && forall i :: 0 <= i < |SplitLines(before)| ==> Normalize(SplitLines(before)[i]).Some?
    ensures BeforeNames(before).Some? ==> |BeforeNames(before).value| == |SplitLines(before)|
    ensures BeforeNames(before).Some? ==> forall i :: 0 <= i < |SplitLines(before)| ==>
      Normalize(SplitLines(before)[i]) == Some(BeforeNames(before).value[i])
  {
    MapAllExactly(Normalize, SplitLines(before));
  }

  lemma {:induction false} ComponentsPlain(parts: seq<string>)
    ensures forall p :: p in Components(parts) <==> p in parts && p != "" && p != "."
    ensures (forall p :: p in parts ==> p != "" && p != ".") ==> Components(parts) == parts
  {
    if parts != [] {
      ComponentsPlain(parts[1..]);
      assert parts == [parts[0]] + parts[1..];
      assert parts[0] in parts && forall p :: p in parts[1..] ==> p in parts;
    }
  }

  /** Empty components and dots in a path are skipped, wherever they stand. */
  lemma {:induction false} ComponentsSkip(a: seq<string>, dot: string, b: seq<string>)
    requires dot == "" || dot == "."
    ensures Components(a + [dot] + b) == Components(a + b)
  {
    if a == [] {
      assert a + [dot] + b == [dot] + b && a + b == b;
      assert ([dot] + b)[1..] == b;
    } else {
      ComponentsSkip(a[1..], dot, b);
      assert (a + [dot] + b)[1..] == a[1..] + [dot] + b && (a + b)[1..] == a[1..] + b;
    }
  }

  /** An accepted path names a package file in `packages`. */
  lemma StoredIsFile(raw: string)
    requires Stored(raw).Some?
    ensures var path := Stored(raw).value; |path| > 9 && path[..9] == "packages/" && PackageFile(path[9..])
  {
    var parts := Components(Split(raw, '/'));
    ComponentsPlain(Split(raw, '/'));
    SplitParts(raw, '/');
    assert parts[1] in Split(raw, '/');
  }

  /** And every such path is accepted as it is. */
  lemma FileIsStored(name: string)
    requires PackageFile(name)
    ensures Stored("packages/" + name) == Some("packages/" + name)
  {
    var all := "packages/" + name;
    SplitTwo("packages", '/', name);
    assert all == "packages" + ['/'] + name;
    assert all[0] == 'p' && '\\' !in all;
    ComponentsPlain(["packages", name]);
  }

  predicate Clash(a: Entry, b: Entry) {
    (a.group == b.group && a.name == b.name) || (a.path.Some? && a.path == b.path)
  }

  ghost predicate ClashFree(es: multiset<Entry>) {
    && (forall e :: e in es ==> es[e] == 1)
    && (forall a, b :: a in es && b in es && a != b ==> !Clash(a, b))
  }

  ghost function Names(es: multiset<Entry>, g: Group): set<string> {
    set e | e in es && e.group == g :: e.name
  }

  ghost predicate PathsAre(es: multiset<Entry>, paths: map<string, string>) {
    && (forall e :: e in es && e.path.Some? ==> e.path.value in paths && paths[e.path.value] == e.name)
    && (forall p :: p in paths ==> exists e :: e in es && e.path == Some(p))
  }

  /** When a transaction is accepted, as a property of the bag of its entries. */
  ghost predicate Accepted(es: multiset<Entry>, names: seq<string>) {
    && es != multiset{} && Distinct(names) && ClashFree(es)
    && var installed := set n | n in names;
       var removed, added, again := Names(es, Outgoing), Names(es, Incoming), Names(es, Again);
       && removed <= installed && again <= installed
       && added !! (installed - removed) && again !! (added + removed)
  }

  ghost function After(es: multiset<Entry>, names: seq<string>): set<string> {
    (set n | n in names) - Names(es, Outgoing) + Names(es, Incoming)
  }

  datatype Prediction = Prediction(bytes: string, paths: map<string, string>)

  method ToSet(names: seq<string>) returns (distinct: bool, s: set<string>)
    ensures distinct <==> Distinct(names)
    ensures distinct ==> s == set n | n in names
  {
    s := {};
    var i := 0;
    while i < |names|
      invariant 0 <= i <= |names|
      invariant s == set n | n in names[..i]
      invariant Distinct(names[..i])
    {
      if names[i] in s {
        ghost var j :| 0 <= j < i && names[..i][j] == names[i];
        assert names[j] == names[i];
        return false, s;
      }
      assert names[..i + 1] == names[..i] + [names[i]];
      s := s + {names[i]};
      i := i + 1;
    }
    assert names[..i] == names;
    distinct := true;
  }

  lemma ExtendBag(es: seq<Entry>, i: int)
    requires 0 <= i < |es|
    ensures multiset(es[..i + 1]) == multiset(es[..i]) + multiset{es[i]}
    ensures multiset(es[..i + 1]) <= multiset(es)
  {
    assert es[..i + 1] == es[..i] + [es[i]];
    assert es == es[..i + 1] + es[i + 1..];
  }

  lemma ExtendNames(es: multiset<Entry>, e: Entry, g: Group)
    ensures Names(es + multiset{e}, g) == Names(es, g) + if e.group == g then {e.name} else {}
  {
    var big := es + multiset{e};
    forall x | x in Names(es, g) ensures x in Names(big, g) {
      var q :| q in es && q.group == g && q.name == x;
      assert q in big;
    }
    assert e in big;
  }

  lemma ExtendClashFree(es: multiset<Entry>, e: Entry)
    requires ClashFree(es) && forall q :: q in es ==> !Clash(q, e)
    ensures ClashFree(es + multiset{e})
  {
    assert e in es ==> !Clash(e, e);
  }

  lemma ClashRefuses(es: multiset<Entry>, part: multiset<Entry>, q: Entry, e: Entry)
    requires part + multiset{e} <= es && q in part && Clash(q, e)
    ensures !ClashFree(es)
  {
    assert q in es && e in es;
    if q == e {
      assert (part + multiset{e})[e] >= 2;
    }
  }

  lemma ExtendPaths(es: multiset<Entry>, e: Entry, paths: map<string, string>)
    requires PathsAre(es, paths)
    requires e.path.Some? ==> e.path.value !in paths
    ensures PathsAre(es + multiset{e}, if e.path.None? then paths else paths[e.path.value := e.name])
  {
    var big := es + multiset{e};
    var more := if e.path.None? then paths else paths[e.path.value := e.name];
    forall p | p in more ensures exists q :: q in big && q.path == Some(p) {
      if p in paths {
        var q :| q in es && q.path == Some(p);
        assert q in big;
      } else {
        assert e in big;
      }
    }
  }

  /** The accumulators of the record loop. */
  datatype Sets = Sets(removed: set<string>, added: set<string>, again: set<string>, paths: map<string, string>) {
    function Of(g: Group): set<string> {
      match g case Outgoing => removed case Again => again case Incoming => added
    }

    function Join(e: Entry): Sets {
      var t := match e.group
        case Outgoing => this.(removed := removed + {e.name})
        case Again => this.(again := again + {e.name})
        case Incoming => this.(added := added + {e.name});
      if e.path.Some? then t.(paths := paths[e.path.value := e.name]) else t
    }

    ghost predicate Tracks(es: multiset<Entry>) {
      && ClashFree(es) && PathsAre(es, paths)
      && (forall g :: Of(g) == Names(es, g))
    }
  }

  lemma JoinTracks(st: Sets, part: multiset<Entry>, e: Entry)
    requires st.Tracks(part)
    requires e.name !in st.Of(e.group) && (e.path.Some? ==> e.path.value !in st.paths)
    ensures st.Join(e).Tracks(part + multiset{e})
  {
    forall q | q in part ensures !Clash(q, e) {
      assert q.group == e.group ==> q.name in Names(part, e.group);
    }
    ExtendClashFree(part, e);
    ExtendPaths(part, e, st.paths);
    forall g ensures st.Join(e).Of(g) == Names(part + multiset{e}, g) {
      ExtendNames(part, e, g);
    }
  }

  lemma RefusedClashes(st: Sets, part: multiset<Entry>, e: Entry, es: multiset<Entry>)
    requires st.Tracks(part) && part + multiset{e} <= es
    requires e.name in st.Of(e.group) || (e.path.Some? && e.path.value in st.paths)
    ensures !ClashFree(es)
  {
    if e.name in Names(part, e.group) {
      var q :| q in part && q.group == e.group && q.name == e.name;
      ClashRefuses(es, part, q, e);
    } else {
      var q :| q in part && q.path == Some(e.path.value);
      ClashRefuses(es, part, q, e);
    }
  }

  /** The record loop of `expected_inventory`: three sets and a path map. */
  method Collect(es: seq<Entry>) returns (ok: bool, st: Sets)
    ensures ok <==> ClashFree(multiset(es))
    ensures ok ==> st.Tracks(multiset(es))
  {
    st := Sets({}, {}, {}, map[]);
    assert st.Tracks(multiset{});
    var i := 0;
    while i < |es|
      invariant 0 <= i <= |es|
      invariant st.Tracks(multiset(es[..i]))
    {
      var e := es[i];
      ExtendBag(es, i);
      if e.name in st.Of(e.group) || (e.path.Some? && e.path.value in st.paths) {
        RefusedClashes(st, multiset(es[..i]), e, multiset(es));
        return false, st;
      }
      JoinTracks(st, multiset(es[..i]), e);
      st := st.Join(e);
      i := i + 1;
    }
    assert es[..i] == es;
    ok := true;
  }

  /** The checks after the loop and the sorted result. */
  method Predict(es: seq<Entry>, names: seq<string>) returns (r: Option<Prediction>)
    ensures r.Some? <==> Accepted(multiset(es), names)
    ensures r.Some? ==>
      && r.value.bytes == JoinLines(SortedSet(After(multiset(es), names)))
      && PathsAre(multiset(es), r.value.paths)
  {
    if es == [] {
      return None;
    }
    assert es[0] in multiset(es);
    var distinct, installed := ToSet(names);
    var ok, st := Collect(es);
    assert ok ==> st.Of(Outgoing) == st.removed && st.Of(Incoming) == st.added && st.Of(Again) == st.again;
    if !distinct || !ok || !(st.removed <= installed && st.again <= installed)
       || !(st.added !! (installed - st.removed)) || !(st.again !! (st.added + st.removed)) {
      return None;
    }
    var sorted := SortSet(installed - st.removed + st.added);
    r := Some(Prediction(JoinLines(sorted), st.paths));
  }

  /** `expected_inventory`. Acceptance and the result depend only on the bag of records;
      the predicted bytes are the sorted result of removing the outgoing names and then
      adding the incoming ones. */
  method ExpectedInventory(records: seq<Record>, before: string) returns (r: Option<Prediction>)
    ensures r.Some? <==>
      && ResolveAll(records).Some? && BeforeNames(before).Some?
      && Accepted(multiset(ResolveAll(records).value), BeforeNames(before).value)
    ensures r.Some? ==>
      && r.value.bytes == JoinLines(SortedSet(After(multiset(ResolveAll(records).value), BeforeNames(before).value)))
      && PathsAre(multiset(ResolveAll(records).value), r.value.paths)
  {
    var es, names := ResolveAll(records), BeforeNames(before);
    if es.None? || names.None? {
      return None;
    }
    r := Predict(es.value, names.value);
  }

  lemma {:induction false} MapAllMove<A, B>(f: A -> Option<B>, a: seq<A>, x: A, b: seq<A>)
    ensures MapAll(f, a + [x] + b).Some? <==> MapAll(f, [x] + (a + b)).Some?
    ensures MapAll(f, a + [x] + b).Some? ==>
              multiset(MapAll(f, a + [x] + b).value) == multiset(MapAll(f, [x] + (a + b)).value)
  {
    assert ([x] + (a + b))[1..] == a + b;
    if a == [] {
      assert a + [x] + b == [x] + (a + b);
    } else {
      var t := a[1..];
      MapAllMove(f, t, x, b);
      assert (a + [x] + b)[1..] == t + [x] + b;
      assert (a + b)[1..] == t + b && ([x] + (t + b))[1..] == t + b;
    }
  }

  lemma {:induction false} MapAllPermuted<A, B>(f: A -> Option<B>, xs: seq<A>, ys: seq<A>)
    requires multiset(xs) == multiset(ys)
    ensures MapAll(f, xs).Some? <==> MapAll(f, ys).Some?
    ensures MapAll(f, xs).Some? ==> multiset(MapAll(f, xs).value) == multiset(MapAll(f, ys).value)
    decreases |xs|
  {
    if xs == [] {
      assert |multiset(ys)| == 0;
      assert ys == [];
    } else {
      var a, b := TakeOut(xs, ys);
      MapAllMove(f, a, xs[0], b);
      MapAllPermuted(f, xs[1..], a + b);
      assert ([xs[0]] + (a + b))[1..] == a + b;
    }
  }

  /** The first element of one arrangement, found and taken out of the other. */
  lemma TakeOut<A>(xs: seq<A>, ys: seq<A>) returns (a: seq<A>, b: seq<A>)
    requires xs != [] && multiset(xs) == multiset(ys)
    ensures ys == a + [xs[0]] + b && multiset(xs[1..]) == multiset(a + b)
  {
    var x := xs[0];
    assert x in multiset(ys);
    var j :| 0 <= j < |ys| && ys[j] == x;
    a, b := ys[..j], ys[j + 1..];
    assert ys == a + [x] + b;
    assert xs == [x] + xs[1..];
    BagOf(a, x, b);
    assert multiset(xs[1..]) == multiset(xs) - multiset{x};
  }

  lemma BagOf<A>(a: seq<A>, x: A, b: seq<A>)
    ensures multiset(a + [x] + b) == multiset(a + b) + multiset{x}
    ensures multiset(a + b) == multiset(a + [x] + b) - multiset{x}
  {
  }

  /** The order of the records does not matter: a permuted transaction resolves to the
      same bag of entries, hence is accepted alike and predicts the same bytes. */
  lemma RecordOrderIrrelevant(rs: seq<Record>, qs: seq<Record>)
    requires multiset(rs) == multiset(qs)
    ensures ResolveAll(rs).Some? <==> ResolveAll(qs).Some?
    ensures ResolveAll(rs).Some? ==> multiset(ResolveAll(rs).value) == multiset(ResolveAll(qs).value)
  {
    MapAllPermuted(Resolve, rs, qs);
  }

  /** The predicted packages in terms of the records: what was installed and no record removes or
      replaces, and what a record installs, upgrades or downgrades. */
  lemma PredictedExactly(records: seq<Record>, names: seq<string>, y: string)
    requires ResolveAll(records).Some?
    ensures y in After(multiset(ResolveAll(records).value), names) <==>
      || (y in names && !exists i :: 0 <= i < |records| && Removes(records[i].action)
                                     && Normalize(records[i].nevra) == Some(y))
      || exists i :: 0 <= i < |records| && Installs(records[i].action) && Normalize(records[i].nevra) == Some(y)
  {
    var es := ResolveAll(records).value;
    MapAllExactly(Resolve, records);
    forall i | 0 <= i < |records|
      ensures es[i].name == y <==> Normalize(records[i].nevra) == Some(y)
      ensures es[i].group.Outgoing? <==> Removes(records[i].action)
      ensures es[i].group.Incoming? <==> Installs(records[i].action)
    {
      ResolvedExactly(records[i]);
    }
    NamesFrom(es, Outgoing, y);
    NamesFrom(es, Incoming, y);
  }

  lemma NamesFrom(es: seq<Entry>, g: Group, y: string)
    ensures y in Names(multiset(es), g) <==> exists i :: 0 <= i < |es| && es[i].group == g && es[i].name == y
  {
    if y in Names(multiset(es), g) {
      var e :| e in multiset(es) && e.group == g && e.name == y;
      var i :| 0 <= i < |es| && es[i] == e;
    }
    if i :| 0 <= i < |es| && es[i].group == g && es[i].name == y {
      assert es[i] in multiset(es);
    }
  }

  /** A permuted transaction is accepted alike, and predicts the same bytes and the same paths. */
  method PredictPermuted(records: seq<Record>, permuted: seq<Record>, before: string)
    returns (a: Option<Prediction>, b: Option<Prediction>)
    requires multiset(records) == multiset(permuted)
    ensures a == b
  {
    a := ExpectedInventory(records, before);
    b := ExpectedInventory(permuted, before);
    RecordOrderIrrelevant(records, permuted);
    if a.Some? {
      SamePaths(multiset(ResolveAll(records).value), a.value.paths, b.value.paths);
    }
  }

  lemma SamePaths(es: multiset<Entry>, a: map<string, string>, b: map<string, string>)
    requires PathsAre(es, a) && PathsAre(es, b)
    ensures a == b
  {
  }

  /* ---------- the observer ---------- */

  /** `splitlines(keepends=True)` on newline-terminated output, then `sorted`, then joined. */
  function Terminated(ls: seq<string>): seq<string> {
    if ls == [] then [] else [ls[0] + "\n"] + Terminated(ls[1..])
  }

  function Concat(ls: seq<string>): string {
    if ls == [] then "" else ls[0] + Concat(ls[1..])
  }

  /** The bytes `package_baseline` hashes. */
  function Observed(raw: string): string {
    Concat(Sort(Terminated(SplitLines(raw))))
  }

  lemma AboveTail(a: string)
    requires a != "" && AboveNewline(a)
    ensures AboveNewline(a[1..])
  {
    forall c | c in a[1..] ensures c in a {
    }
  }

  /** Appending a newline keeps the order of names whose characters all sort above it. */
  lemma {:induction false} NewlineKeepsOrder(a: string, b: string)
    requires AboveNewline(a) && AboveNewline(b)
    ensures Less(a + "\n", b + "\n") <==> Less(a, b)
  {
    if a == "" {
      if b == "" {
        assert !Less("\n"[1..], "\n"[1..]);
      } else {
        assert b[0] in b;
        assert (a + "\n")[0] == '\n' && (b + "\n")[0] == b[0];
      }
    } else {
      assert a[0] in a;
      assert (a + "\n")[0] == a[0] && (a + "\n")[1..] == a[1..] + "\n";
      if b == "" {
        assert (b + "\n")[0] == '\n';
      } else {
        assert (b + "\n")[0] == b[0] && (b + "\n")[1..] == b[1..] + "\n";
        AboveTail(a);
        AboveTail(b);
        NewlineKeepsOrder(a[1..], b[1..]);
      }
    }
  }

  lemma {:induction false} InsertTerminated(x: string, s: seq<string>)
    requires AboveNewline(x) && forall y :: y in s ==> AboveNewline(y)
    ensures Insert(x + "\n", Terminated(s)) == Terminated(Insert(x, s))
  {
    if s != [] {
      NewlineKeepsOrder(s[0], x);
      assert Terminated(s)[1..] == Terminated(s[1..]);
      InsertTerminated(x, s[1..]);
      if !Less(s[0], x) {
        assert ([x] + s)[1..] == s;
      }
    }
  }

  lemma {:induction false} SortTerminated(s: seq<string>)
    requires forall y :: y in s ==> AboveNewline(y)
    ensures Sort(Terminated(s)) == Terminated(Sort(s))
  {
    if s != [] {
      assert Terminated(s)[1..] == Terminated(s[1..]);
      SortTerminated(s[1..]);
      assert forall y :: y in Sort(s[1..]) ==> y in multiset(Sort(s[1..]));
      InsertTerminated(s[0], Sort(s[1..]));
    }
  }

  lemma {:induction false} ConcatTerminated(s: seq<string>)
    ensures Concat(Terminated(s)) == JoinLines(s)
  {
    if s != [] {
      ConcatTerminated(s[1..]);
      assert Terminated(s)[1..] == Terminated(s[1..]);
    }
  }

  /** Sorting newline-terminated lines and sorting bare names give the same bytes. */
  lemma ObservedBytes(names: seq<string>)
    requires Distinct(names) && forall y :: y in names ==> AboveNewline(y)
    ensures Observed(JoinLines(names)) == JoinLines(SortedSet(set y | y in names))
  {
    forall i | 0 <= i < |names| ensures NoBreaks(names[i]) {
      assert names[i] in names;
    }
    SplitJoin(names);
    SortTerminated(names);
    ConcatTerminated(Sort(names));
    SortIncreasing(names);
    assert forall x :: x in Sort(names) <==> x in multiset(Sort(names));
    IncreasingUnique(Sort(names), SortedSet(set y | y in names));
  }

  lemma {:induction false} NormalizedAbove(ls: seq<string>)
    requires MapAll(Normalize, ls).Some?
    ensures forall y :: y in MapAll(Normalize, ls).value ==> AboveNewline(y)
  {
    if ls != [] {
      NormalizedChars(ls[0]);
      NormalizedAbove(ls[1..]);
    }
  }

  lemma ResolvedAbove(r: Record)
    requires Resolve(r).Some?
    ensures AboveNewline(Resolve(r).value.name)
  {
    NormalizedChars(r.nevra);
  }

  lemma {:induction false} EntriesAbove(rs: seq<Record>)
    requires ResolveAll(rs).Some?
    ensures forall e :: e in ResolveAll(rs).value ==> AboveNewline(e.name)
  {
    if rs != [] {
      ResolvedAbove(rs[0]);
      EntriesAbove(rs[1..]);
    }
  }

  lemma AfterAbove(es: seq<Entry>, names: seq<string>)
    requires forall e :: e in es ==> AboveNewline(e.name)
    requires forall y :: y in names ==> AboveNewline(y)
    ensures forall y :: y in After(multiset(es), names) ==> AboveNewline(y)
  {
    forall y | y in Names(multiset(es), Incoming) ensures AboveNewline(y) {
      var e :| e in multiset(es) && e.name == y;
    }
  }

  lemma SameBytesSameSet(a: set<string>, b: set<string>)
    requires forall y :: y in a ==> AboveNewline(y)
    requires forall y :: y in b ==> AboveNewline(y)
    ensures JoinLines(SortedSet(a)) == JoinLines(SortedSet(b)) ==> a == b
  {
    LinesOfSet(a);
    LinesOfSet(b);
    if SortedSet(a) == SortedSet(b) {
      assert forall x :: x in a <==> x in b;
    }
  }

  /** The observer hashes exactly the predicted bytes if and only if the listed
      packages, in whatever order they are listed, are exactly the predicted ones. */
  lemma PredictorAgreesWithObserver(records: seq<Record>, before: string, listed: seq<string>)
    requires ResolveAll(records).Some? && BeforeNames(before).Some?
    requires Distinct(listed) && forall y :: y in listed ==> AboveNewline(y)
    ensures var want := After(multiset(ResolveAll(records).value), BeforeNames(before).value);
            Observed(JoinLines(listed)) == JoinLines(SortedSet(want)) <==> (set y | y in listed) == want
  {
    var es, names := ResolveAll(records).value, BeforeNames(before).value;
    EntriesAbove(records);
    NormalizedAbove(SplitLines(before));
    AfterAbove(es, names);
    ObservedBytes(listed);
    SameBytesSameSet((set y | y in listed), After(multiset(es), names));
  }

  lemma LinesOfSet(s: set<string>)
    requires forall y :: y in s ==> AboveNewline(y)
    ensures SplitLines(JoinLines(SortedSet(s))) == SortedSet(s)
  {
    var ls := SortedSet(s);
    forall i | 0 <= i < |ls| ensures NoBreaks(ls[i]) {
      assert ls[i] in ls;
    }
    SplitJoin(ls);
  }
}
