/** A whole run of `harden-config.py`: load, apply, stamp, decide, write. */
module ConfigRun {
  import opened Options
  import opened Text
  import opened ConfigContract
  import EnvFile

  const PROFILE := "manual_profile"
  const APPLIED := "applied_utc"

  /** `config.yaml` as the program sees it; `Unparsable` covers YAML errors. */
  datatype ConfigFile = Absent | Blank | Unparsable | Document(v: Value)

  /** The profile directory. `env` is the raw content of `.env`, if the file exists. */
  datatype Disk = Disk(config: ConfigFile, env: Option<string>, backups: seq<ConfigFile>)

  datatype Contract = Contract(desired: Mapping, replaced: seq<Path>, env: EnvFile.Allowlist, sha: Value) {
    ghost predicate Valid() { env.Valid() }

    /** The contract says nothing about the program's own bookkeeping section. */
    predicate SilentOnProfile() {
      PROFILE !in desired
      && forall i :: 0 <= i < |replaced| ==>
           NonEmpty(replaced[i]) == [] || NonEmpty(replaced[i])[0] != PROFILE
    }
  }

  datatype Mode = Converge | Check | Upgrade
  datatype Exit = Stopped | CheckFailed | CheckPassed | Unchanged | Applied

  function Section(m: Mapping): Mapping {
    if PROFILE in m && m[PROFILE].Map? then m[PROFILE].m else map[]
  }

  function Stamped(existing: Mapping, config: Mapping, sha: Value, now: Value): Mapping {
    var previous := Section(existing);
    var utc := if APPLIED in previous then previous[APPLIED] else now;
    config[PROFILE := Map(Section(config)["contract_version" := Num(1)]["contract_sha256" := sha][APPLIED := utc])]
  }

  /** `effective`: the document without the volatile timestamp. */
  function Effective(m: Mapping): Mapping {
    if PROFILE in m && m[PROFILE].Map? then m[PROFILE := Map(m[PROFILE].m - {APPLIED})] else m
  }

  /** Two documents that differ in nothing but the time of the last change. */
  ghost predicate SameButTime(a: Mapping, b: Mapping) {
    && a.Keys == b.Keys && (forall k :: k in a && k != PROFILE ==> a[k] == b[k])
    && (PROFILE in a ==>
          if a[PROFILE].Map? && b[PROFILE].Map? then SameEntries(a[PROFILE].m, b[PROFILE].m)
          else a[PROFILE] == b[PROFILE])
  }

  ghost predicate SameEntries(a: Mapping, b: Mapping) {
    forall k :: k != APPLIED ==> (k in a <==> k in b) && (k in a ==> a[k] == b[k])
  }

  lemma EntriesExactly(a: Mapping, b: Mapping)
    ensures a - {APPLIED} == b - {APPLIED} <==> SameEntries(a, b)
  {
    var x, y := a - {APPLIED}, b - {APPLIED};
    assert forall k :: k in x <==> k in a && k != APPLIED;
    assert forall k :: k in y <==> k in b && k != APPLIED;
    if x == y {
      forall k | k != APPLIED ensures (k in a <==> k in b) && (k in a ==> a[k] == b[k]) {
        assert k in x <==> k in y;
        assert k in x ==> x[k] == y[k];
      }
    }
    if SameEntries(a, b) {
      assert x.Keys == y.Keys;
    }
  }

  /** The comparison that decides whether anything has changed ignores the time and nothing else. */
  lemma EffectiveExactly(a: Mapping, b: Mapping)
    ensures Effective(a) == Effective(b) <==> SameButTime(a, b)
  {
    var x, y := Effective(a), Effective(b);
    assert x.Keys == a.Keys && y.Keys == b.Keys;
    if PROFILE in a && PROFILE in b && a[PROFILE].Map? && b[PROFILE].Map? {
      EntriesExactly(a[PROFILE].m, b[PROFILE].m);
    }
    if x == y {
      assert forall k :: k in a ==> x[k] == y[k];
    }
    if SameButTime(a, b) {
      assert forall k :: k in x ==> x[k] == y[k];
    }
  }

  function EnvText(disk: Disk): string {
    match disk.env case None => "" case Some(raw) => ReadText(raw)
  }

  function Restamp(config: Mapping, now: Value): Mapping {
    config[PROFILE := Map(Section(config)[APPLIED := now])]
  }

  /** `main`. A plain run writes only what differs, `--check` writes nothing,
      `--upgrade` always rewrites the configuration. */
  method Run(disk: Disk, c: Contract, mode: Mode, now: Value) returns (exit: Exit, after: Disk)
    requires c.Valid()
    ensures exit.Stopped? <==> disk.config.Unparsable? || (disk.config.Document? && !disk.config.v.Map?)
    ensures mode.Check? || exit.Stopped? ==> after == disk
    ensures !exit.Stopped? ==>
      var existing := Existing(disk);
      var config := Stamped(existing, Apply(existing, c.desired, c.replaced), c.sha, now);
      var changed := Effective(existing) != Effective(config) || disk.config.Absent?;
      && (mode.Check? ==> (exit.CheckPassed? <==> !changed && !EnvDiffers(disk, c)))
      && (exit.CheckPassed? ==> mode.Check?)
      && (!mode.Check? ==>
            after.env == if EnvDiffers(disk, c) then Some(EnvFile.Rendered(c.env, EnvText(disk))) else disk.env)
      && (!mode.Check? && !changed && !mode.Upgrade? ==>
            exit.Unchanged? && after.config == disk.config && after.backups == disk.backups)
      && (!mode.Check? && (changed || mode.Upgrade?) ==>
            && exit.Applied?
            && after.config == Document(Map(Restamp(config, now)))
            && after.backups == disk.backups + if disk.config.Absent? then [] else [disk.config])
  {
    after := disk;
    if disk.config.Unparsable? || (disk.config.Document? && !disk.config.v.Map?) {
      return Stopped, disk;
    }
    var existing := Existing(disk);
    var merged := MergeInto(DropAll(existing, c.replaced), c.desired);
    var config := Stamped(existing, merged, c.sha, now);
    var changed := Effective(existing) != Effective(config) || disk.config.Absent?;
    var text := EnvText(disk);
    var updated := text;
    if c.env.keys != [] {
      updated := EnvFile.RenderEnv(c.env, text);
    }
    if mode.Check? {
      return (if changed || updated != text then CheckFailed else CheckPassed), disk;
    }
    if changed || mode.Upgrade? {
      if !disk.config.Absent? {
        after := after.(backups := disk.backups + [disk.config]);
      }
      after := after.(config := Document(Map(Restamp(config, now))));
    }
    if updated != text {
      after := after.(env := Some(updated));
    }
    exit := if changed || mode.Upgrade? then Applied else Unchanged;
  }

  function Existing(disk: Disk): Mapping {
    if disk.config.Document? && disk.config.v.Map? then disk.config.v.m else map[]
  }

  ghost predicate EnvDiffers(disk: Disk, c: Contract)
    requires c.Valid()
  {
    c.env.keys != [] && EnvFile.Rendered(c.env, EnvText(disk)) != EnvText(disk)
  }

  /* ---------- convergence of whole runs ---------- */

  lemma MergeBesideProfile(t: Mapping, d: Mapping, x: Value)
    requires PROFILE !in d
    ensures Merge(t[PROFILE := x], d) == Merge(t, d)[PROFILE := x]
  {
  }

  lemma {:induction false} DropAllBesideProfile(t: Mapping, replaced: seq<Path>, x: Value)
    requires forall i :: 0 <= i < |replaced| ==>
               NonEmpty(replaced[i]) == [] || NonEmpty(replaced[i])[0] != PROFILE
    ensures DropAll(t[PROFILE := x], replaced) == DropAll(t, replaced)[PROFILE := x]
    decreases |replaced|
  {
    if replaced != [] {
      var parts := NonEmpty(replaced[0]);
      assert Drop(t[PROFILE := x], parts) == Drop(t, parts)[PROFILE := x];
      DropAllBesideProfile(Drop(t, parts), replaced[1..], x);
    }
  }

  /** Applying the contract commutes with rewriting the bookkeeping section. */
  lemma ApplyBesideProfile(e: Mapping, c: Contract, x: Value)
    requires c.SilentOnProfile()
    ensures Apply(e[PROFILE := x], c.desired, c.replaced) == Apply(e, c.desired, c.replaced)[PROFILE := x]
  {
    DropAllBesideProfile(e, c.replaced, x);
    MergeBesideProfile(DropAll(e, c.replaced), c.desired, x);
  }

  /** What a run writes is a fixed point of the next run, whenever that happens. */
  lemma WrittenConfigConverged(existing: Mapping, c: Contract, now: Value, later: Value)
    requires c.SilentOnProfile()
    ensures var written := Restamp(Stamped(existing, Apply(existing, c.desired, c.replaced), c.sha, now), now);
            Stamped(written, Apply(written, c.desired, c.replaced), c.sha, later) == written
  {
    var a := Apply(existing, c.desired, c.replaced);
    var written := Restamp(Stamped(existing, a, c.sha, now), now);
    var x := written[PROFILE];
    assert written == a[PROFILE := x];
    ApplyBesideProfile(a, c, x);
    ApplyIdempotent(existing, c.desired, c.replaced);
    assert Apply(written, c.desired, c.replaced) == written;
    var s := x.m;
    assert s["contract_version" := Num(1)]["contract_sha256" := c.sha][APPLIED := s[APPLIED]] == s;
    assert written[PROFILE := Map(s)] == written;
  }

  /** A second run writes nothing: neither file changes and no backup appears, for
      every profile the first run accepted and every later time. */
  method RunTwice(disk: Disk, c: Contract, now: Value, later: Value)
    returns (first: Exit, once: Disk, second: Exit, twice: Disk)
    requires c.Valid() && c.SilentOnProfile() && EnvFile.Clean(c.env)
    ensures first.Stopped? || second.Unchanged?
    ensures twice == once
  {
    first, once := Run(disk, c, Converge, now);
    second, twice := Run(once, c, Converge, later);
    ghost var existing := Existing(disk);
    ghost var config := Stamped(existing, Apply(existing, c.desired, c.replaced), c.sha, now);
    if first.Applied? {
      WrittenConfigConverged(existing, c, now, later);
    } else if first.Unchanged? {
      UnchangedStays(existing, c, now, later);
    }
    if !first.Stopped? {
      EnvConverged(disk, once, c);
    }
  }

  lemma UnchangedStays(existing: Mapping, c: Contract, now: Value, later: Value)
    requires c.SilentOnProfile()
    requires Effective(existing) == Effective(Stamped(existing, Apply(existing, c.desired, c.replaced), c.sha, now))
    ensures Effective(existing) == Effective(Stamped(existing, Apply(existing, c.desired, c.replaced), c.sha, later))
  {
    var a := Apply(existing, c.desired, c.replaced);
    var s1, s2 := Stamped(existing, a, c.sha, now), Stamped(existing, a, c.sha, later);
    assert s1[PROFILE].m - {APPLIED} == s2[PROFILE].m - {APPLIED};
    assert Effective(s1) == Effective(s2);
  }

  lemma EnvConverged(disk: Disk, once: Disk, c: Contract)
    requires c.Valid() && EnvFile.Clean(c.env)
    requires once.env == if EnvDiffers(disk, c) then Some(EnvFile.Rendered(c.env, EnvText(disk))) else disk.env
    ensures !EnvDiffers(once, c)
  {
    if EnvDiffers(disk, c) {
      EnvFile.RenderConverges(c.env, EnvText(disk));
    }
  }

  lemma {:induction false} LookupByHead(a: Mapping, b: Mapping, parts: Path)
    requires parts != []
    requires parts[0] in a <==> parts[0] in b
    requires parts[0] in a ==> a[parts[0]] == b[parts[0]]
    ensures Lookup(a, parts) == Lookup(b, parts)
  {
  }

  lemma EffectiveKeepsOthers(a: Mapping, b: Mapping, k: string)
    requires Effective(a) == Effective(b) && k != PROFILE
    ensures k in a <==> k in b
    ensures k in a ==> a[k] == b[k]
  {
    assert k in Effective(a) <==> k in a;
    assert k in Effective(b) <==> k in b;
    assert k in a ==> Effective(a)[k] == a[k];
    assert k in b ==> Effective(b)[k] == b[k];
  }

  /** A passing `--check` means `verify-contract.py` passes too: on the configuration
      always, on the environment exactly when the contract's values have no outer
      white space. */
  lemma CheckedProfileVerifies(order: Mapping -> seq<Value>, disk: Disk, c: Contract, now: Value)
    requires c.Valid() && c.SilentOnProfile()
    requires forall i :: 0 <= i < |c.replaced| ==> Droppable(c.replaced[i])
    requires var existing := Existing(disk);
      Effective(existing) == Effective(Stamped(existing, Apply(existing, c.desired, c.replaced), c.sha, now))
    requires !EnvDiffers(disk, c)
    ensures ConfigVerified(order, c.desired, c.replaced, Existing(disk))
    ensures EnvFile.EnvVerified(c.env, EnvText(disk)) <==>
            forall k :: k in c.env.values ==> Stripped(c.env.values[k])
  {
    var existing := Existing(disk);
    var applied := Apply(existing, c.desired, c.replaced);
    var config := Stamped(existing, applied, c.sha, now);
    AppliedVerifies(order, existing, c.desired, c.replaced);
    forall k | k in c.desired
      ensures k in existing && existing[k] == applied[k]
    {
      EffectiveKeepsOthers(existing, config, k);
      assert k in applied;
    }
    CompareTopLevel(order, c.desired, applied, existing);
    forall i | 0 <= i < |c.replaced|
      ensures ReplaceHolds(c.desired, existing, c.replaced[i])
    {
      var p := c.replaced[i];
      assert p[0] == NonEmpty(p)[0];
      EffectiveKeepsOthers(existing, config, p[0]);
      LookupByHead(existing, applied, p);
      assert ReplaceHolds(c.desired, applied, p);
    }
    if c.env.keys != [] {
      EnvFile.CheckedEnvVerifies(c.env, EnvText(disk));
    }
  }

  lemma CompareTopLevel(order: Mapping -> seq<Value>, want: Mapping, a: Mapping, b: Mapping)
    requires forall k :: k in want ==> k in a && k in b && a[k] == b[k]
    requires Compare(order, ["config"], Map(want), Map(a)) == {}
    ensures Compare(order, ["config"], Map(want), Map(b)) == {}
  {
    forall k | k in want ensures Compare(order, ["config"] + [k], want[k], b[k]) == {} {
      assert Compare(order, ["config"] + [k], want[k], a[k]) <= Compare(order, ["config"], Map(want), Map(a));
    }
  }

  /** Without the silence condition the verifier rejects what the program just wrote:
      a contract that pins its own bookkeeping section is overwritten by the stamp. */
  lemma PinnedProfileCounterexample(order: Mapping -> seq<Value>, sha: Value, now: Value)
    ensures var d: Mapping := map[PROFILE := Map(map["contract_version" := Num(2)])];
            !ConfigVerified(order, d, [], Stamped(map[], Apply(map[], d, []), sha, now))
  {
    var d: Mapping := map[PROFILE := Map(map["contract_version" := Num(2)])];
    var got := Stamped(map[], Apply(map[], d, []), sha, now);
    var w := d[PROFILE].m;
    var p := ["config"] + [PROFILE] + ["contract_version"];
    assert Compare(order, p, w["contract_version"], got[PROFILE].m["contract_version"]) != {};
    assert Problem(p, Differs)
        in Compare(order, ["config"] + [PROFILE], d[PROFILE], got[PROFILE]);
    assert Problem(["config"] + [PROFILE] + ["contract_version"], Differs)
        in Compare(order, ["config"], Map(d), Map(got));
  }

  /* ---------- when what was written verifies ---------- */

  const VERSION := "contract_version"
  const SHA := "contract_sha256"

  /** The section of a profile without any other entries. */
  function Stamps(sha: Value, stamp: string): Mapping {
    map[VERSION := Num(1), SHA := sha, APPLIED := Str(stamp)]
  }

  /** The configuration that a run writes at the time `stamp`. */
  function Written(existing: Mapping, c: Contract, stamp: string): Mapping {
    Restamp(Stamped(existing, Apply(existing, c.desired, c.replaced), c.sha, Str(stamp)), Str(stamp))
  }

  lemma WrittenIs(existing: Mapping, c: Contract, stamp: string)
    ensures var a := Apply(existing, c.desired, c.replaced);
      Written(existing, c, stamp) == a[PROFILE := Map(Section(a) + Stamps(c.sha, stamp))]
  {
    var a := Apply(existing, c.desired, c.replaced);
    var config := Stamped(existing, a, c.sha, Str(stamp));
    assert Section(config)[APPLIED := Str(stamp)] == Section(a) + Stamps(c.sha, stamp);
    var stamped := Map(Section(a) + Stamps(c.sha, stamp));
    assert config[PROFILE := stamped] == a[PROFILE := stamped];
  }

  /** The verifier accepts this string or number for that value; a list of a string's characters
      counts as the string. */
  predicate Accepts(want: Value, got: Value) {
    want == got
    || (want.List? && got.Str? && want.items == seq(|got.s|, i requires 0 <= i < |got.s| => Str([got.s[i]])))
  }

  /** The contract is silent on the section, or pins none of its three entries to something else, or
      is the list of their names as the file will hold them. */
  ghost predicate SectionFits(order: Mapping -> seq<Value>, c: Contract) {
    PROFILE !in c.desired
    || match c.desired[PROFILE]
       case Map(w) => APPLIED !in w && (VERSION in w ==> w[VERSION] == Num(1)) && (SHA in w ==> Accepts(w[SHA], c.sha))
       case List(items) => forall stamp: string :: order(Stamps(c.sha, stamp)) == items
       case _ => false
  }

  /** No replaced path is the section, or its time, or another stamped entry the contract does not set
      to the stamped value. */
  predicate ReplacementFits(c: Contract) {
    forall p :: p in c.replaced && p != [] && p[0] == PROFILE ==>
      && p != [PROFILE] && p != [PROFILE, APPLIED]
      && (p == [PROFILE, VERSION] ==> GetPath(c.desired, p) == Num(1))
      && (p == [PROFILE, SHA] ==> GetPath(c.desired, p) == c.sha)
  }

  /** A mapping compares clean exactly when its entries do. */
  lemma CompareParts(order: Mapping -> seq<Value>, at: Path, w: Mapping, g: Mapping)
    ensures Compare(order, at, Map(w), Map(g)) == {} <==>
      forall k :: k in w ==> if k in g then Compare(order, at + [k], w[k], g[k]) == {} else w[k] == Map(map[])
  {
    var all := Compare(order, at, Map(w), Map(g));
    forall k | k in w ensures k in g ==> Compare(order, at + [k], w[k], g[k]) <= all
      ensures k !in g && w[k] != Map(map[]) ==> Problem(at + [k], Missing) in all
    {
    }
  }

  lemma CompareScalar(order: Mapping -> seq<Value>, at: Path, want: Value, got: Value)
    requires got.Str? || got == Num(1)
    ensures Compare(order, at, want, got) == {} <==> Accepts(want, got)
  {
  }

  lemma AcceptsOne(want: Value)
    ensures !(Accepts(want, Str("a")) && Accepts(want, Str("b")))
  {
    AcceptsChar(want, 'a');
    AcceptsChar(want, 'b');
  }

  lemma AcceptsChar(want: Value, c: char)
    ensures Accepts(want, Str([c])) ==> want == Str([c]) || want == List([Str([c])])
  {
  }

  lemma StampsDiffer(sha: Value, stamp: string)
    ensures |VERSION| != |SHA| && |VERSION| != |APPLIED| && |SHA| != |APPLIED|
    ensures Stamps(sha, stamp)[VERSION] == Num(1) && Stamps(sha, stamp)[SHA] == sha
    ensures Stamps(sha, stamp)[APPLIED] == Str(stamp) && Stamps(sha, stamp) != map[]
  {
    assert VERSION in Stamps(sha, stamp);
  }

  /** The section of the written file satisfies the contract's. */
  lemma SectionVerifies(order: Mapping -> seq<Value>, c: Contract, existing: Mapping, stamp: string)
    requires SectionFits(order, c) && PROFILE in c.desired && c.sha.Str?
    requires var a := Apply(existing, c.desired, c.replaced);
      PROFILE in a && Compare(order, ["config"] + [PROFILE], c.desired[PROFILE], a[PROFILE]) == {}
    ensures var a := Apply(existing, c.desired, c.replaced);
      Compare(order, ["config"] + [PROFILE], c.desired[PROFILE], Map(Section(a) + Stamps(c.sha, stamp))) == {}
  {
    var a := Apply(existing, c.desired, c.replaced);
    var at, want, stamps := ["config"] + [PROFILE], c.desired[PROFILE], Stamps(c.sha, stamp);
    StampsDiffer(c.sha, stamp);
    if want.List? {
      assert a[PROFILE] == want;
      assert Section(a) + stamps == stamps;
    } else {
      var w, g := want.m, Section(a) + stamps;
      assert a[PROFILE].Map?;
      CompareParts(order, at, w, a[PROFILE].m);
      forall k | k in w ensures if k in g then Compare(order, at + [k], w[k], g[k]) == {} else w[k] == Map(map[]) {
        if k in stamps { CompareScalar(order, at + [k], w[k], g[k]); }
      }
      CompareParts(order, at, w, g);
    }
  }

  /** A path below the section reads, in the written file, as it read before the stamp, or as one of
      the stamped values. */
  lemma SectionPath(a: Mapping, stamps: Mapping, p: Path)
    requires |p| >= 2 && p[0] == PROFILE
    ensures var written := a[PROFILE := Map(Section(a) + stamps)];
      Lookup(written, p) == if p[1] in stamps then Lookup(stamps, p[1..]) else Lookup(a, p)
  {
    var written, rest := a[PROFILE := Map(Section(a) + stamps)], p[1..];
    assert Lookup(written, p) == Lookup(Section(a) + stamps, rest);
    LookupByHead(Section(a) + stamps, if p[1] in stamps then stamps else Section(a), rest);
  }

  /** What the contract has below a stamped entry it fits. */
  lemma BelowStamp(order: Mapping -> seq<Value>, c: Contract, stamp: string, p: Path)
    requires SectionFits(order, c) && c.sha.Str? && |p| >= 3 && p[0] == PROFILE && p[1] in Stamps(c.sha, stamp)
    ensures Lookup(c.desired, p) == None && Lookup(Stamps(c.sha, stamp), p[1..]) == None
  {
    StampsDiffer(c.sha, stamp);
    var rest := p[1..];
    assert rest[0] == p[1] && |rest| > 1;
    if PROFILE in c.desired && c.desired[PROFILE].Map? {
      assert Lookup(c.desired, p) == Lookup(c.desired[PROFILE].m, rest);
    }
  }

  lemma FitsVerifies(order: Mapping -> seq<Value>, c: Contract, existing: Mapping, stamp: string)
    requires (forall i :: 0 <= i < |c.replaced| ==> Droppable(c.replaced[i])) && c.sha.Str?
    requires SectionFits(order, c) && ReplacementFits(c)
    ensures ConfigVerified(order, c.desired, c.replaced, Written(existing, c, stamp))
  {
    var a, stamps := Apply(existing, c.desired, c.replaced), Stamps(c.sha, stamp);
    var written := a[PROFILE := Map(Section(a) + stamps)];
    WrittenIs(existing, c, stamp);
    AppliedVerifies(order, existing, c.desired, c.replaced);
    CompareParts(order, ["config"], c.desired, a);
    if PROFILE in c.desired { SectionVerifies(order, c, existing, stamp); }
    CompareParts(order, ["config"], c.desired, written);
    forall i | 0 <= i < |c.replaced| ensures ReplaceHolds(c.desired, written, c.replaced[i]) {
      var p := c.replaced[i];
      assert p in c.replaced && ReplaceHolds(c.desired, a, p);
      if p[0] != PROFILE {
        LookupByHead(a, written, p);
      } else {
        PathVerifies(order, c, a, stamp, p);
      }
    }
  }

  lemma PathVerifies(order: Mapping -> seq<Value>, c: Contract, a: Mapping, stamp: string, p: Path)
    requires c.sha.Str? && SectionFits(order, c) && ReplacementFits(c)
    requires p in c.replaced && p != [] && p[0] == PROFILE && ReplaceHolds(c.desired, a, p)
    ensures ReplaceHolds(c.desired, a[PROFILE := Map(Section(a) + Stamps(c.sha, stamp))], p)
  {
    var stamps := Stamps(c.sha, stamp);
    assert |p| == 1 ==> p == [PROFILE];
    SectionPath(a, stamps, p);
    StampsDiffer(c.sha, stamp);
    if p[1] in stamps {
      if |p| == 2 {
        assert p == [PROFILE, p[1]];
        assert p[1..] == [p[1]];
      } else {
        BelowStamp(order, c, stamp, p);
      }
    }
  }

  /** The converse: what always verifies fits. */
  lemma VerifiesFits(order: Mapping -> seq<Value>, c: Contract)
    requires (forall i :: 0 <= i < |c.replaced| ==> Droppable(c.replaced[i])) && c.sha.Str?
    requires forall stamp: string :: ConfigVerified(order, c.desired, c.replaced, Written(map[], c, stamp))
    ensures SectionFits(order, c) && ReplacementFits(c)
  {
    if PROFILE in c.desired {
      match c.desired[PROFILE]
      case Map(w) =>
        PinsFit(order, c, "a");
        PinsFit(order, c, "b");
        if APPLIED in w { AcceptsOne(w[APPLIED]); }
      case List(items) =>
        forall stamp: string ensures order(Stamps(c.sha, stamp)) == items { ListFits(order, c, stamp); }
      case _ => ScalarNever(order, c);
    }
    forall p | p in c.replaced && p != [] && p[0] == PROFILE
      ensures p != [PROFILE] && p != [PROFILE, APPLIED]
      ensures p == [PROFILE, VERSION] ==> GetPath(c.desired, p) == Num(1)
      ensures p == [PROFILE, SHA] ==> GetPath(c.desired, p) == c.sha
    {
      PathFits(order, c, "a", p);
      PathFits(order, c, "b", p);
    }
  }

  /** What a verified file says about the section. */
  lemma SectionClean(order: Mapping -> seq<Value>, c: Contract, stamp: string)
    requires PROFILE in c.desired && ConfigVerified(order, c.desired, c.replaced, Written(map[], c, stamp))
    ensures var a := Apply(map[], c.desired, c.replaced);
      Compare(order, ["config"] + [PROFILE], c.desired[PROFILE], Map(Section(a) + Stamps(c.sha, stamp))) == {}
  {
    var a := Apply(map[], c.desired, c.replaced);
    WrittenIs(map[], c, stamp);
    CompareParts(order, ["config"], c.desired, a[PROFILE := Map(Section(a) + Stamps(c.sha, stamp))]);
  }

  lemma PinsFit(order: Mapping -> seq<Value>, c: Contract, stamp: string)
    requires PROFILE in c.desired && c.desired[PROFILE].Map? && c.sha.Str?
    requires ConfigVerified(order, c.desired, c.replaced, Written(map[], c, stamp))
    ensures var w := c.desired[PROFILE].m;
      && (APPLIED in w ==> Accepts(w[APPLIED], Str(stamp))) && (VERSION in w ==> w[VERSION] == Num(1))
      && (SHA in w ==> Accepts(w[SHA], c.sha))
  {
    var a, at, w := Apply(map[], c.desired, c.replaced), ["config"] + [PROFILE], c.desired[PROFILE].m;
    var g := Section(a) + Stamps(c.sha, stamp);
    SectionClean(order, c, stamp);
    StampsDiffer(c.sha, stamp);
    CompareParts(order, at, w, g);
    forall k | k in w && k in Stamps(c.sha, stamp) ensures Accepts(w[k], Stamps(c.sha, stamp)[k]) {
      CompareScalar(order, at + [k], w[k], g[k]);
    }
  }

  lemma ListFits(order: Mapping -> seq<Value>, c: Contract, stamp: string)
    requires PROFILE in c.desired && c.desired[PROFILE].List?
    requires ConfigVerified(order, c.desired, c.replaced, Written(map[], c, stamp))
    ensures order(Stamps(c.sha, stamp)) == c.desired[PROFILE].items
  {
    var a := Apply(map[], c.desired, c.replaced);
    SectionClean(order, c, stamp);
    StampsDiffer(c.sha, stamp);
    assert a[PROFILE] == c.desired[PROFILE];
    assert Section(a) + Stamps(c.sha, stamp) == Stamps(c.sha, stamp);
  }

  lemma ScalarNever(order: Mapping -> seq<Value>, c: Contract)
    requires PROFILE in c.desired && !c.desired[PROFILE].Map? && !c.desired[PROFILE].List?
    ensures !ConfigVerified(order, c.desired, c.replaced, Written(map[], c, "a"))
  {
    if ConfigVerified(order, c.desired, c.replaced, Written(map[], c, "a")) { SectionClean(order, c, "a"); }
  }

  /** What a verified file says about a replaced path that is stamped. */
  lemma PathFits(order: Mapping -> seq<Value>, c: Contract, stamp: string, p: Path)
    requires ConfigVerified(order, c.desired, c.replaced, Written(map[], c, stamp)) && p in c.replaced
    ensures p == [PROFILE] ==>
      exists m: Mapping :: GetPath(c.desired, p) == Map(m) && APPLIED in m && m[APPLIED] == Str(stamp)
    ensures p == [PROFILE, APPLIED] ==> GetPath(c.desired, p) == Str(stamp)
    ensures p == [PROFILE, VERSION] ==> GetPath(c.desired, p) == Num(1)
    ensures p == [PROFILE, SHA] ==> c.sha.Str? ==> GetPath(c.desired, p) == c.sha
  {
    var a := Apply(map[], c.desired, c.replaced);
    var written := a[PROFILE := Map(Section(a) + Stamps(c.sha, stamp))];
    WrittenIs(map[], c, stamp);
    StampsDiffer(c.sha, stamp);
    var i :| 0 <= i < |c.replaced| && c.replaced[i] == p;
    assert ReplaceHolds(c.desired, written, p);
    if p == [PROFILE] {
      assert GetPath(written, p) == written[PROFILE];
    } else if |p| == 2 && p[0] == PROFILE && p[1] in Stamps(c.sha, stamp) {
      SectionPath(a, Stamps(c.sha, stamp), p);
    }
  }

  /** When the verifier accepts what was written, over all existing configurations and all times: if
      and only if the contract fits the bookkeeping section. */
  lemma WrittenVerifiesPrecisely(order: Mapping -> seq<Value>, c: Contract)
    requires (forall i :: 0 <= i < |c.replaced| ==> Droppable(c.replaced[i])) && c.sha.Str?
    ensures (forall existing: Mapping, stamp: string ::
               ConfigVerified(order, c.desired, c.replaced, Written(existing, c, stamp)))
        <==> SectionFits(order, c) && ReplacementFits(c)
  {
    if SectionFits(order, c) && ReplacementFits(c) {
      forall existing: Mapping, stamp: string
        ensures ConfigVerified(order, c.desired, c.replaced, Written(existing, c, stamp))
      {
        FitsVerifies(order, c, existing, stamp);
      }
    }
    if forall existing: Mapping, stamp: string ::
      ConfigVerified(order, c.desired, c.replaced, Written(existing, c, stamp))
    {
      VerifiesFits(order, c);
    }
  }
}
