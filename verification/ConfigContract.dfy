/** The configuration contract: `harden-config.py` applies it, `verify-contract.py`
    compares an on-disk profile with it. The two programs share no code.

    YAML scalars are taken up to Python's `==` (so `True` and `1` are one value);
    every operation below respects that identification. */
module ConfigContract {
  import opened Options

  datatype Value =
    | Null
    | Num(n: int)
    | Str(s: string)
    | List(items: seq<Value>)
    | Map(m: map<string, Value>)

  type Mapping = map<string, Value>
  type Path = seq<string>

  /* ---------- applying the contract ---------- */

  /** `merge`: mappings merge recursively, lists and scalars replace. */
  function Merge(target: Mapping, patch: Mapping): Mapping
    decreases Map(patch)
  {
    map k | k in target.Keys + patch.Keys ::
      if k !in patch then target[k]
      else if patch[k].Map? && k in target && target[k].Map?
      then Map(Merge(target[k].m, patch[k].m))
      else patch[k]
  }

  /** The loop of `merge`, taking the patch's keys in any order. */
  method MergeInto(target: Mapping, patch: Mapping) returns (r: Mapping)
    ensures r == Merge(target, patch)
    decreases Map(patch)
  {
    r := target;
    var todo := patch.Keys;
    while todo != {}
      invariant todo <= patch.Keys
      invariant r.Keys == target.Keys + (patch.Keys - todo)
      invariant forall k :: k in r ==>
        r[k] == if k in todo || k !in patch then target[k] else Merge(target, patch)[k]
    {
      var k :| k in todo;
      if patch[k].Map? && k in r && r[k].Map? {
        var inner := MergeInto(r[k].m, patch[k].m);
        r := r[k := Map(inner)];
      } else {
        r := r[k := patch[k]];
      }
      todo := todo - {k};
    }
  }

  /** `drop_path` on the non-empty components. */
  function Drop(target: Mapping, parts: Path): Mapping
    decreases |parts|
  {
    if parts == [] then target
    else if |parts| == 1 then target - {parts[0]}
    else if parts[0] in target && target[parts[0]].Map?
    then target[parts[0] := Map(Drop(target[parts[0]].m, parts[1..]))]
    else target
  }

  function NonEmpty(parts: Path): Path {
    if parts == [] then []
    else (if parts[0] == "" then [] else [parts[0]]) + NonEmpty(parts[1..])
  }

  function DropAll(target: Mapping, replaced: seq<Path>): Mapping
    decreases |replaced|
  {
    if replaced == [] then target
    else DropAll(Drop(target, NonEmpty(replaced[0])), replaced[1..])
  }

  /** `apply_contract`; `replaced` holds the dotted paths split at the dots. */
  function Apply(existing: Mapping, desired: Mapping, replaced: seq<Path>): Mapping {
    Merge(DropAll(existing, replaced), desired)
  }

  /* ---------- verifying against the contract ---------- */

  datatype Reason = NotMapping | Missing | Differs
  datatype Problem = Problem(at: Path, reason: Reason)

  /** `list(got or [])`; a non-zero number raises, which is a failed run. */
  function AsList(order: Mapping -> seq<Value>, got: Value): Option<seq<Value>> {
    match got
    case Null => Some([])
    case Num(n) => if n == 0 then Some([]) else None
    case Str(s) => Some(seq(|s|, i requires 0 <= i < |s| => Str([s[i]])))
    case List(items) => Some(items)
    case Map(m) => if m == map[] then Some([]) else Some(order(m))
  }

  /** `compare`; `order` is the iteration order Python happens to give a mapping. */
  function Compare(order: Mapping -> seq<Value>, at: Path, want: Value, got: Value): set<Problem>
    decreases want
  {
    match want
    case Map(w) =>
      if w == map[] && got.Null? then {}
      else if !got.Map? then {Problem(at, NotMapping)}
      else
        (set k | k in w && k !in got.m && w[k] != Map(map[]) :: Problem(at + [k], Missing)) +
        (set k, p | k in w && k in got.m && p in Compare(order, at + [k], w[k], got.m[k]) :: p)
    case List(items) =>
      if AsList(order, got) == Some(items) then {} else {Problem(at, Differs)}
    case _ =>
      if want == got then {} else {Problem(at, Differs)}
  }

  function Lookup(document: Mapping, parts: Path): Option<Value>
    decreases |parts|
  {
    if parts == [] then Some(Map(document))
    else if parts[0] !in document then None
    else if |parts| == 1 then Some(document[parts[0]])
    else if document[parts[0]].Map? then Lookup(document[parts[0]].m, parts[1..])
    else None
  }

  /** `get_path`: a missing path reads as `None`. */
  function GetPath(document: Mapping, parts: Path): Value {
    match Lookup(document, parts) case None => Null case Some(v) => v
  }

  /** The loop of `get_path`. */
  method GetPathLoop(document: Mapping, parts: Path) returns (node: Value)
    ensures node == GetPath(document, parts)
  {
    node := Map(document);
    var i := 0;
    while i < |parts|
      invariant 0 <= i <= |parts|
      invariant node.Map? ==> GetPath(document, parts) == GetPath(node.m, parts[i..])
      invariant !node.Map? ==> GetPath(document, parts) == if i == |parts| then node else Null
    {
      if !node.Map? || parts[i] !in node.m {
        return Null;
      }
      assert parts[i..][1..] == parts[i + 1..];
      node := node.m[parts[i]];
      i := i + 1;
    }
  }

  predicate ReplaceHolds(desired: Mapping, config: Mapping, dotted: Path) {
    var want, got := GetPath(desired, dotted), GetPath(config, dotted);
    (want == Map(map[]) && got.Null?) || want == got
  }

  /** `verify-contract.py` finds nothing wrong with the configuration. */
  predicate ConfigVerified(order: Mapping -> seq<Value>, desired: Mapping, replaced: seq<Path>, config: Mapping) {
    && Compare(order, ["config"], Map(desired), Map(config)) == {}
    && forall i :: 0 <= i < |replaced| ==> ReplaceHolds(desired, config, replaced[i])
  }

  /* ---------- what the comparer demands, path by path ---------- */

  /** What the configuration must hold at a path where the contract has `want`: the same scalar, a
      list with the same items (or what Python's `list(got or [])` makes into them), a mapping; an
      empty mapping may also be null or missing. */
  predicate Meets(order: Mapping -> seq<Value>, want: Value, got: Option<Value>) {
    match want
    case Map(w) => if w == map[] then got.None? || got.value.Null? || got.value.Map? else got.Some? && got.value.Map?
    case List(items) => got.Some? && ListedAs(order, items, got.value)
    case _ => got == Some(want)
  }

  predicate ListedAs(order: Mapping -> seq<Value>, items: seq<Value>, got: Value) {
    match got
    case Null => items == []
    case Num(n) => n == 0 && items == []
    case Str(s) => |items| == |s| && forall i :: 0 <= i < |s| ==> items[i] == Str([s[i]])
    case List(l) => l == items
    case Map(m) => items == if m == map[] then [] else order(m)
  }

  /** Every part of the contract is met at its own path. */
  ghost predicate MeetsAll(order: Mapping -> seq<Value>, want: Mapping, got: Mapping) {
    forall parts :: Lookup(want, parts).Some? ==> Meets(order, Lookup(want, parts).value, Lookup(got, parts))
  }

  lemma MeetsBelow(order: Mapping -> seq<Value>, want: Mapping, got: Mapping, k: string)
    requires MeetsAll(order, want, got) && k in want && want[k].Map? && k in got && got[k].Map?
    ensures MeetsAll(order, want[k].m, got[k].m)
  {
    forall parts | Lookup(want[k].m, parts).Some?
      ensures Meets(order, Lookup(want[k].m, parts).value, Lookup(got[k].m, parts))
    {
      assert ([k] + parts)[1..] == parts;
      assert Lookup(want, [k] + parts) == Lookup(want[k].m, parts);
      assert Lookup(got, [k] + parts) == Lookup(got[k].m, parts);
    }
  }

  lemma MeetsAtKey(order: Mapping -> seq<Value>, want: Mapping, got: Mapping, k: string)
    requires MeetsAll(order, want, got) && k in want
    ensures Meets(order, want[k], if k in got then Some(got[k]) else None)
  {
    assert Lookup(want, [k]) == Some(want[k]);
    assert Lookup(got, [k]) == if k in got then Some(got[k]) else None;
  }

  /** The comparer finds nothing in one value against another. */
  lemma {:induction false} CompareValue(order: Mapping -> seq<Value>, at: Path, want: Value, got: Value)
    ensures Compare(order, at, want, got) == {} <==>
            Meets(order, want, Some(got)) && (want.Map? && got.Map? ==> MeetsAll(order, want.m, got.m))
    decreases want, 1
  {
    match want
    case Map(w) =>
      if got.Map? {
        CompareExactly(order, at, w, got.m);
      }
    case List(items) =>
      if got.Str? {
        var l := AsList(order, got).value;
        assert l == items <==> ListedAs(order, items, got);
      }
    case _ =>
  }

  /** The comparer accepts exactly the configurations that meet the contract at every path of it. */
  lemma {:induction false} CompareExactly(order: Mapping -> seq<Value>, at: Path, want: Mapping, got: Mapping)
    ensures Compare(order, at, Map(want), Map(got)) == {} <==> MeetsAll(order, want, got)
    decreases Map(want), 0
  {
    forall k | k in want && k in got
      ensures Compare(order, at + [k], want[k], got[k]) == {} <==>
              Meets(order, want[k], Some(got[k]))
              && (want[k].Map? && got[k].Map? ==> MeetsAll(order, want[k].m, got[k].m))
    {
      CompareValue(order, at + [k], want[k], got[k]);
    }
    if MeetsAll(order, want, got) {
      forall k | k in want
        ensures k in got || want[k] == Map(map[])
        ensures k in got ==> Compare(order, at + [k], want[k], got[k]) == {}
      {
        MeetsAtKey(order, want, got, k);
        if k in got && want[k].Map? && got[k].Map? { MeetsBelow(order, want, got, k); }
      }
    }
    if Compare(order, at, Map(want), Map(got)) == {} {
      NoProblemMeets(order, at, want, got);
    }
  }

  /** From the keys of a mapping to the paths below them. */
  lemma NoProblemMeets(order: Mapping -> seq<Value>, at: Path, want: Mapping, got: Mapping)
    requires Compare(order, at, Map(want), Map(got)) == {}
    requires forall k :: k in want && k in got && Compare(order, at + [k], want[k], got[k]) == {} ==>
               && Meets(order, want[k], Some(got[k]))
               && (want[k].Map? && got[k].Map? ==> MeetsAll(order, want[k].m, got[k].m))
    ensures MeetsAll(order, want, got)
  {
    forall parts | Lookup(want, parts).Some?
      ensures Meets(order, Lookup(want, parts).value, Lookup(got, parts))
    {
      if parts != [] {
        var k := parts[0];
        if |parts| > 1 {
          assert Lookup(want[k].m, parts[1..]).Some? && parts[1..] != [];
          assert want[k] != Map(map[]);
        }
        if k !in got {
          assert Problem(at + [k], Missing) in Compare(order, at, Map(want), Map(got)) || want[k] == Map(map[]);
        } else {
          assert forall p :: p in Compare(order, at + [k], want[k], got[k]) ==>
              p in Compare(order, at, Map(want), Map(got));
          assert Compare(order, at + [k], want[k], got[k]) == {};
        }
      }
    }
  }

  /** The verifier accepts exactly what meets the contract at every path and equals it at every
      replaced one. */
  lemma VerifiedExactly(order: Mapping -> seq<Value>, desired: Mapping, replaced: seq<Path>, config: Mapping)
    ensures ConfigVerified(order, desired, replaced, config) <==>
            && MeetsAll(order, desired, config)
            && forall i :: 0 <= i < |replaced| ==>
                 || GetPath(config, replaced[i]) == GetPath(desired, replaced[i])
                 || (GetPath(config, replaced[i]).Null? && GetPath(desired, replaced[i]) == Map(map[]))
  {
    CompareExactly(order, ["config"], desired, config);
  }

  /* ---------- the applied tree satisfies the comparer ---------- */

  lemma {:induction false} CompareSelf(order: Mapping -> seq<Value>, at: Path, v: Value)
    ensures Compare(order, at, v, v) == {}
    decreases v
  {
    if v.Map? {
      forall k | k in v.m ensures Compare(order, at + [k], v.m[k], v.m[k]) == {} {
        CompareSelf(order, at + [k], v.m[k]);
      }
    }
  }

  lemma {:induction false} CompareMerged(order: Mapping -> seq<Value>, at: Path, target: Mapping, patch: Mapping)
    ensures Compare(order, at, Map(patch), Map(Merge(target, patch))) == {}
    decreases Map(patch)
  {
    forall k | k in patch
      ensures Compare(order, at + [k], patch[k], Merge(target, patch)[k]) == {}
    {
      if patch[k].Map? && k in target && target[k].Map? {
        CompareMerged(order, at + [k], target[k].m, patch[k].m);
      } else {
        CompareSelf(order, at + [k], patch[k]);
      }
    }
  }

  /** Empty components, if any, come last and not alone: "a.b" and "a.", not "a..b". */
  predicate Droppable(dotted: Path) {
    NonEmpty(dotted) != [] && NonEmpty(dotted) <= dotted
  }

  lemma {:induction false} AbsentBelow(t: Mapping, prefix: Path, parts: Path)
    requires prefix <= parts && Lookup(t, prefix) == None
    ensures Lookup(t, parts) == None
    decreases |prefix|
  {
    if |prefix| > 1 && prefix[0] in t && t[prefix[0]].Map? {
      AbsentBelow(t[prefix[0]].m, prefix[1..], parts[1..]);
    }
  }

  lemma {:induction false} DropRemoves(t: Mapping, parts: Path)
    requires parts != []
    ensures Lookup(Drop(t, parts), parts) == None
    decreases |parts|
  {
    if |parts| > 1 && parts[0] in t && t[parts[0]].Map? {
      DropRemoves(t[parts[0]].m, parts[1..]);
    }
  }

  lemma {:induction false} DropKeepsAbsent(t: Mapping, parts: Path, other: Path)
    requires Lookup(t, parts) == None
    ensures Lookup(Drop(t, other), parts) == None
    decreases |parts|
  {
    if |parts| > 1 && |other| > 1 && parts[0] == other[0] && parts[0] in t && t[parts[0]].Map? {
      DropKeepsAbsent(t[parts[0]].m, parts[1..], other[1..]);
    }
  }

  lemma {:induction false} DropAllKeepsAbsent(t: Mapping, parts: Path, replaced: seq<Path>)
    requires Lookup(t, parts) == None
    ensures Lookup(DropAll(t, replaced), parts) == None
    decreases |replaced|
  {
    if replaced != [] {
      DropKeepsAbsent(t, parts, NonEmpty(replaced[0]));
      DropAllKeepsAbsent(Drop(t, NonEmpty(replaced[0])), parts, replaced[1..]);
    }
  }

  lemma {:induction false} DropAllRemoves(t: Mapping, replaced: seq<Path>, i: int)
    requires 0 <= i < |replaced| && NonEmpty(replaced[i]) != []
    ensures Lookup(DropAll(t, replaced), NonEmpty(replaced[i])) == None
    decreases |replaced|
  {
    var t' := Drop(t, NonEmpty(replaced[0]));
    if i == 0 {
      DropRemoves(t, NonEmpty(replaced[0]));
      DropAllKeepsAbsent(t', NonEmpty(replaced[0]), replaced[1..]);
    } else {
      DropAllRemoves(t', replaced[1..], i - 1);
    }
  }

  /** Where the target has nothing, the merged tree has exactly what the patch has. */
  lemma {:induction false} MergeAtAbsent(t: Mapping, d: Mapping, parts: Path)
    requires parts != [] && Lookup(t, parts) == None
    ensures Lookup(Merge(t, d), parts) == Lookup(d, parts)
    decreases |parts|
  {
    var k := parts[0];
    if |parts| > 1 && k in t && k in d && t[k].Map? && d[k].Map? {
      MergeAtAbsent(t[k].m, d[k].m, parts[1..]);
    }
  }

  /** Every replaced path of the applied tree equals the contract's value exactly. */
  lemma ReplacedExactly(e: Mapping, d: Mapping, replaced: seq<Path>, i: int)
    requires 0 <= i < |replaced| && Droppable(replaced[i])
    ensures Lookup(Apply(e, d, replaced), replaced[i]) == Lookup(d, replaced[i])
  {
    DropAllRemoves(e, replaced, i);
    AbsentBelow(DropAll(e, replaced), NonEmpty(replaced[i]), replaced[i]);
    MergeAtAbsent(DropAll(e, replaced), d, replaced[i]);
  }

  /** The two programs agree on every contract and every existing configuration. */
  lemma AppliedVerifies(order: Mapping -> seq<Value>, e: Mapping, d: Mapping, replaced: seq<Path>)
    requires forall i :: 0 <= i < |replaced| ==> Droppable(replaced[i])
    ensures ConfigVerified(order, d, replaced, Apply(e, d, replaced))
  {
    CompareMerged(order, ["config"], DropAll(e, replaced), d);
    forall i | 0 <= i < |replaced| ensures ReplaceHolds(d, Apply(e, d, replaced), replaced[i]) {
      ReplacedExactly(e, d, replaced, i);
    }
  }

  function Chain(parts: Path, v: Value): Mapping
    requires parts != []
    decreases |parts|
  {
    map[parts[0] := if |parts| == 1 then v else Map(Chain(parts[1..], v))]
  }

  lemma {:induction false} ChainHolds(parts: Path, v: Value)
    requires parts != []
    ensures Lookup(Chain(parts, v), parts) == Some(v)
    decreases |parts|
  {
    if |parts| > 1 {
      ChainHolds(parts[1..], v);
    }
  }

  lemma {:induction false} NonEmptyHasNoEmpty(parts: Path)
    ensures "" !in NonEmpty(parts)
  {
    if parts != [] {
      NonEmptyHasNoEmpty(parts[1..]);
    }
  }

  lemma {:induction false} EmptyComponentSurvives(parts: Path, v: Value)
    requires parts != [] && !Droppable(parts)
    ensures Drop(Chain(parts, v), NonEmpty(parts)) == Chain(parts, v)
    decreases |parts|
  {
    NonEmptyHasNoEmpty(parts);
    if parts[0] != "" {
      assert NonEmpty(parts) == [parts[0]] + NonEmpty(parts[1..]);
      assert NonEmpty(parts[1..]) <= parts[1..] ==> NonEmpty(parts) <= parts;
      EmptyComponentSurvives(parts[1..], v);
    }
  }

  /** Exact replacement holds for all trees exactly when the path is droppable: an
      empty component elsewhere is skipped by the drop but kept by the lookup. */
  lemma ReplacementPrecisely(dotted: Path)
    requires dotted != []
    ensures (forall e: Mapping, d: Mapping ::
               Lookup(Apply(e, d, [dotted]), dotted) == Lookup(d, dotted)) <==> Droppable(dotted)
  {
    if Droppable(dotted) {
      forall e: Mapping, d: Mapping
        ensures Lookup(Apply(e, d, [dotted]), dotted) == Lookup(d, dotted)
      {
        ReplacedExactly(e, d, [dotted], 0);
      }
    } else {
      var e := Chain(dotted, Num(1));
      EmptyComponentSurvives(dotted, Num(1));
      ChainHolds(dotted, Num(1));
      assert [dotted][1..] == [] && DropAll(e, [dotted]) == e;
      assert Merge(e, map[]) == e;
      assert Lookup(Apply(e, map[], [dotted]), dotted) == Some(Num(1)) != Lookup(map[], dotted);
    }
  }

  /* ---------- what the contract does not mention is kept ---------- */

  /** The contract neither sets `parts` nor anything above or below it. */
  predicate Silent(d: Mapping, parts: Path)
    decreases |parts|
  {
    parts != []
    && (parts[0] !in d || (|parts| > 1 && d[parts[0]].Map? && Silent(d[parts[0]].m, parts[1..])))
  }

  predicate Unrelated(a: Path, b: Path) {
    !(a <= b) && !(b <= a)
  }

  lemma {:induction false} SilentAbsent(d: Mapping, parts: Path)
    requires Silent(d, parts)
    ensures Lookup(d, parts) == None
    decreases |parts|
  {
    if parts[0] in d {
      SilentAbsent(d[parts[0]].m, parts[1..]);
    }
  }

  lemma {:induction false} MergeKeepsSilent(t: Mapping, d: Mapping, parts: Path)
    requires Silent(d, parts)
    ensures Lookup(Merge(t, d), parts) == Lookup(t, parts)
    decreases |parts|
  {
    var k := parts[0];
    if k in d {
      if k in t && t[k].Map? {
        MergeKeepsSilent(t[k].m, d[k].m, parts[1..]);
      } else {
        SilentAbsent(d[k].m, parts[1..]);
      }
    }
  }

  lemma {:induction false} DropKeepsUnrelated(t: Mapping, dropped: Path, parts: Path)
    requires dropped == [] || Unrelated(dropped, parts)
    ensures Lookup(Drop(t, dropped), parts) == Lookup(t, parts)
    decreases |dropped|
  {
    if |dropped| > 1 && parts != [] && dropped[0] == parts[0] && dropped[0] in t && t[dropped[0]].Map? {
      assert dropped[1..] <= parts[1..] ==> dropped <= parts;
      assert parts[1..] <= dropped[1..] ==> parts <= dropped;
      DropKeepsUnrelated(t[dropped[0]].m, dropped[1..], parts[1..]);
    }
  }

  /** A path the contract neither sets nor replaces reads the same before and after. */
  lemma {:induction false} UnmentionedKept(e: Mapping, d: Mapping, replaced: seq<Path>, parts: Path)
    requires Silent(d, parts)
    requires forall i :: 0 <= i < |replaced| ==>
               NonEmpty(replaced[i]) == [] || Unrelated(NonEmpty(replaced[i]), parts)
    ensures Lookup(Apply(e, d, replaced), parts) == Lookup(e, parts)
    decreases |replaced|
  {
    if replaced == [] {
      MergeKeepsSilent(e, d, parts);
    } else {
      DropKeepsUnrelated(e, NonEmpty(replaced[0]), parts);
      UnmentionedKept(Drop(e, NonEmpty(replaced[0])), d, replaced[1..], parts);
    }
  }

  /* ---------- applying twice ---------- */

  lemma {:induction false} MergeIdempotent(t: Mapping, d: Mapping)
    ensures Merge(Merge(t, d), d) == Merge(t, d)
    decreases Map(d)
  {
    var r := Merge(t, d);
    forall k | k in r ensures Merge(r, d)[k] == r[k] {
      if k in d && d[k].Map? {
        if k in t && t[k].Map? {
          MergeIdempotent(t[k].m, d[k].m);
        } else {
          MergeOverEmpty(d[k].m);
          MergeIdempotent(map[], d[k].m);
        }
      }
    }
  }

  lemma MergeOverEmpty(d: Mapping)
    ensures Merge(map[], d) == d
  {
  }

  lemma {:induction false} DropAbsent(t: Mapping, parts: Path)
    requires parts == [] || Lookup(t, parts) == None
    ensures Drop(t, parts) == t
    decreases |parts|
  {
    if |parts| > 1 && parts[0] in t && t[parts[0]].Map? {
      DropAbsent(t[parts[0]].m, parts[1..]);
      assert t[parts[0] := t[parts[0]]] == t;
    }
  }

  /** What a drop removes from a merged tree, the next merge restores, provided the
      target had nothing there. */
  lemma {:induction false} DropThenMerge(x: Mapping, t: Mapping, d: Mapping, parts: Path)
    requires Merge(x, d) == Merge(t, d)
    requires parts == [] || Lookup(t, parts) == None
    ensures Merge(Drop(x, parts), d) == Merge(t, d)
    decreases |parts|
  {
    if |parts| == 1 {
      var k := parts[0];
      assert k !in d ==> k !in Merge(t, d);
      assert k !in d ==> k !in Merge(x, d);
      assert Merge(x - {k}, d) == Merge(t, d) by {
        forall j | j in Merge(t, d) ensures j in Merge(x - {k}, d) && Merge(x - {k}, d)[j] == Merge(t, d)[j] {
          assert j in Merge(x, d) && Merge(x, d)[j] == Merge(t, d)[j];
        }
        forall j | j in Merge(x - {k}, d) ensures j in Merge(t, d) {
          assert j in Merge(x, d);
        }
      }
    } else if |parts| > 1 && parts[0] in x && x[parts[0]].Map? {
      DropInsideThenMerge(x, t, d, parts);
    }
  }

  lemma {:induction false} DropInsideThenMerge(x: Mapping, t: Mapping, d: Mapping, parts: Path)
    requires |parts| > 1 && parts[0] in x && x[parts[0]].Map?
    requires Merge(x, d) == Merge(t, d) && Lookup(t, parts) == None
    ensures Merge(Drop(x, parts), d) == Merge(t, d)
    decreases |parts|, 0
  {
    var k, y := parts[0], Drop(x, parts);
    assert k in Merge(x, d);
    assert k in Merge(t, d);
    assert Merge(x, d)[k] == Merge(t, d)[k];
    if k !in d {
      DropAbsent(x[k].m, parts[1..]);
      assert y == x;
    } else if d[k].Map? {
      if k in t && t[k].Map? {
        DropThenMerge(x[k].m, t[k].m, d[k].m, parts[1..]);
      } else {
        MergeOverEmpty(d[k].m);
        DropThenMerge(x[k].m, map[], d[k].m, parts[1..]);
      }
    }
    assert y.Keys == x.Keys;
    forall j | j in Merge(x, d) ensures Merge(y, d)[j] == Merge(x, d)[j] {
    }
    assert Merge(y, d) == Merge(x, d);
  }

  lemma {:induction false} DropAllThenMerge(x: Mapping, t: Mapping, d: Mapping, replaced: seq<Path>)
    requires Merge(x, d) == Merge(t, d)
    requires forall i :: 0 <= i < |replaced| ==>
               NonEmpty(replaced[i]) == [] || Lookup(t, NonEmpty(replaced[i])) == None
    ensures Merge(DropAll(x, replaced), d) == Merge(t, d)
    decreases |replaced|
  {
    if replaced != [] {
      DropThenMerge(x, t, d, NonEmpty(replaced[0]));
      DropAllThenMerge(Drop(x, NonEmpty(replaced[0])), t, d, replaced[1..]);
    }
  }

  /** Contract application is idempotent, for every contract and configuration. */
  lemma ApplyIdempotent(e: Mapping, d: Mapping, replaced: seq<Path>)
    ensures Apply(Apply(e, d, replaced), d, replaced) == Apply(e, d, replaced)
  {
    var t := DropAll(e, replaced);
    forall i | 0 <= i < |replaced|
      ensures NonEmpty(replaced[i]) == [] || Lookup(t, NonEmpty(replaced[i])) == None
    {
      if NonEmpty(replaced[i]) != [] {
        DropAllRemoves(e, replaced, i);
      }
    }
    MergeIdempotent(t, d);
    DropAllThenMerge(Merge(t, d), t, d, replaced);
  }
}
