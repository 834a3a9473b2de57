/** Generating and verifying the migration manifest (`generate-migration-manifest.py`). Both sides
    read the same kind of world: a listed working tree, the provenance of its files, and the
    identity of its environment. `sha` and `json` stand for the digest and the JSON encoder. */
module ManifestVerify {
  import opened Text
  import opened Manifest
  import Order

  datatype Entry = Entry(hash: string, mode: string)

  /** What `git ls-files` lists, what is really there, and the modes of the index. */
  datatype Tree = Tree(files: seq<string>, present: map<string, Entry>, index: map<string, string>)

  /** The source counterpart of a file and how it relates to it; `sound` unless `classify` has a
      problem with it. */
  datatype Provenance = Provenance(srcHash: string, srcMode: string, origin: string, state: string, sound: bool)

  /** `fixed` holds what the program itself puts into the identity: its version, the base commit, the
      payload and inventory algorithms and what they exclude. `environment` holds the rest. */
  datatype World = World(tree: Tree, provenance: string -> Provenance, fixed: map<string, string>,
                         environment: map<string, string>, audit: seq<Audit>,
                         excluded: seq<Exclusion>, prose: seq<string>, notes: seq<string>, remarks: seq<string>,
                         closing: seq<string>, sha: string -> string, json: map<string, Entry> -> string)

  const OUTPUT := "docs/migration-manifest.txt"

  /* ---------- the working tree ---------- */

  function Listed(files: seq<string>): (r: seq<string>)
    ensures forall p :: p in r <==> p in files && p != OUTPUT
  {
    if files == [] then []
    else
      var rest := Listed(files[1..]);
      assert forall p :: p in files <==> p == files[0] || p in files[1..];
      if files[0] == OUTPUT then rest else [files[0]] + rest
  }

  function EntryOf(t: Tree, p: string): Entry {
    if p in t.present then t.present[p] else Entry("-", "-")
  }

  /** `current`: every listed path with its hash and mode. */
  function Current(t: Tree): map<string, Entry> {
    map p | p in t.files && p != OUTPUT :: EntryOf(t, p)
  }

  /** The lines whose digest is the payload fingerprint. */
  function Payload(paths: seq<string>, current: map<string, Entry>): string
    requires forall p :: p in paths ==> p in current
  {
    if paths == [] then ""
    else paths[0] + "\0" + current[paths[0]].hash + "\0" + current[paths[0]].mode + "\n" + Payload(paths[1..], current)
  }

  function RowPayload(rows: seq<Row>): string {
    if rows == [] then ""
    else rows[0].path + "\0" + rows[0].destHash + "\0" + rows[0].destMode + "\n" + RowPayload(rows[1..])
  }

  function Differing(t: Tree, paths: seq<string>): seq<Audit> {
    if paths == [] then []
    else
      var p, rest := paths[0], Differing(t, paths[1..]);
      if p in t.present && p in t.index && t.index[p] != t.present[p].mode
      then [Audit(ModeMismatch, p + "\t" + t.index[p] + "\t" + t.present[p].mode)] + rest
      else rest
  }

  function Sorted(t: Tree): (r: seq<string>)
    ensures forall p :: p in r <==> p in t.files && p != OUTPUT
  {
    Order.SortMembers(Listed(t.files));
    Order.Sort(Listed(t.files))
  }

  /** The disagreements between index and working tree, path by path. */
  function Mismatches(t: Tree): seq<Audit> {
    Differing(t, Sorted(t))
  }

  /** Every listed file that index and working tree know with different modes is reported, and every
      report is of such a file. */
  lemma MismatchesExactly(t: Tree, p: string)
    ensures p != OUTPUT && p in t.files && Mismatched(t, p) ==> exists a :: a in Mismatches(t) && Reports(t, a, p)
    ensures forall a :: a in Mismatches(t) ==> exists q :: q in t.files && q != OUTPUT && Reports(t, a, q)
  {
    DifferingExactly(t, Sorted(t), p);
  }

  predicate Mismatched(t: Tree, p: string) {
    p in t.present && p in t.index && t.index[p] != t.present[p].mode
  }

  /** The report names the path and both modes. */
  predicate Reports(t: Tree, a: Audit, p: string) {
    Mismatched(t, p) && a == Audit(ModeMismatch, p + "\t" + t.index[p] + "\t" + t.present[p].mode)
  }

  lemma {:induction false} DifferingExactly(t: Tree, paths: seq<string>, p: string)
    ensures p in paths && Mismatched(t, p) ==> exists a :: a in Differing(t, paths) && Reports(t, a, p)
    ensures forall a :: a in Differing(t, paths) ==> exists q :: q in paths && Reports(t, a, q)
  {
    if paths != [] {
      DifferingExactly(t, paths[1..], p);
      if Mismatched(t, paths[0]) {
        assert Reports(t, Differing(t, paths)[0], paths[0]);
      }
      forall a | a in Differing(t, paths) ensures exists q :: q in paths && Reports(t, a, q) {
        if a in Differing(t, paths[1..]) {
          var q :| q in paths[1..] && Reports(t, a, q);
          assert q in paths;
        } else {
          assert Reports(t, a, paths[0]);
        }
      }
    }
  }

  /** The part of the identity that depends on the destination. */
  function Destination(payload: string, rows: nat, inventory: string, entries: nat,
                       mismatches: nat): map<string, string> {
    map["payload_fingerprint" := payload,
        "payload_rows" := Decimal(rows),
        "inventory_fingerprint" := inventory,
        "inventory_rows" := Decimal(entries),
        "destination_index_mode_mismatches" := Decimal(mismatches)]
  }

  function Recomputed(w: World): map<string, string> {
    var current := Current(w.tree);
    var payload := w.sha(Payload(Sorted(w.tree), current));
    w.fixed + Destination(payload, |current|, w.sha(w.json(current)), |current|, |Mismatches(w.tree)|)
  }

  /* ---------- classification ---------- */

  function RowOf(w: World, p: string): Row {
    var e, v := EntryOf(w.tree, p), w.provenance(p);
    Row(e.hash, e.mode, v.srcHash, v.srcMode, v.origin, v.state, p)
  }

  function RowsFor(w: World, paths: seq<string>): (r: seq<Row>)
    ensures |r| == |paths| && forall i :: 0 <= i < |r| ==> r[i] == RowOf(w, paths[i])
  {
    seq(|paths|, i requires 0 <= i < |paths| => RowOf(w, paths[i]))
  }

  predicate NoProblems(w: World) {
    forall p :: p in w.tree.files && p != OUTPUT ==> p in w.tree.present && w.provenance(p).sound
  }

  function Rows(w: World): seq<Row> {
    RowsFor(w, Sorted(w.tree))
  }

  /** The identity `classify` records: the environment, and the destination as its rows show it. */
  function Identity(w: World): map<string, string> {
    var current := Current(w.tree);
    var payload := w.sha(RowPayload(Rows(w)));
    var destination := Destination(payload, |Rows(w)|, w.sha(w.json(current)), |current|, |Mismatches(w.tree)|);
    w.environment + (w.fixed + destination)
  }

  function Generated(w: World): Content {
    Content(w.prose, Identity(w), w.notes, w.audit + Mismatches(w.tree), w.remarks, w.excluded, w.closing, Rows(w))
  }

  function PathsOf(rows: seq<Row>): (r: seq<string>)
    ensures |r| == |rows| && forall i :: 0 <= i < |r| ==> r[i] == rows[i].path
  {
    seq(|rows|, i requires 0 <= i < |rows| => rows[i].path)
  }

  function InsertRow(r: Row, rows: seq<Row>): seq<Row> {
    if rows == [] || !Order.Less(rows[0].path, r.path) then [r] + rows else [rows[0]] + InsertRow(r, rows[1..])
  }

  /** `rows.sort(key=path)`. */
  function SortRows(rows: seq<Row>): seq<Row> {
    if rows == [] then [] else InsertRow(rows[0], SortRows(rows[1..]))
  }

  lemma PathsOfCons(r: Row, rows: seq<Row>)
    ensures PathsOf([r] + rows) == [r.path] + PathsOf(rows)
  {
  }

  lemma {:induction false} InsertPaths(r: Row, rows: seq<Row>)
    ensures PathsOf(InsertRow(r, rows)) == Order.Insert(r.path, PathsOf(rows))
    ensures forall x :: x in InsertRow(r, rows) ==> x == r || x in rows
    decreases |rows|
  {
    if rows != [] && Order.Less(rows[0].path, r.path) {
      var rest := rows[1..];
      InsertPaths(r, rest);
      assert rows == [rows[0]] + rest;
      PathsOfCons(rows[0], rest);
      PathsOfCons(rows[0], InsertRow(r, rest));
      assert PathsOf(rows)[1..] == PathsOf(rest);
    } else {
      PathsOfCons(r, rows);
    }
  }

  lemma {:induction false} SortPaths(rows: seq<Row>)
    ensures PathsOf(SortRows(rows)) == Order.Sort(PathsOf(rows))
    ensures forall x :: x in SortRows(rows) ==> x in rows
    decreases |rows|
  {
    if rows != [] {
      var rest := rows[1..];
      SortPaths(rest);
      InsertPaths(rows[0], SortRows(rest));
      assert PathsOf(rows)[1..] == PathsOf(rest);
    }
  }

  /** One listed path. */
  method ClassifyOne(w: World, p: string, rows: seq<Row>, problems: seq<string>)
    returns (more: seq<Row>, worse: seq<string>)
    ensures worse == [] <==> problems == [] && (p != OUTPUT ==> p in w.tree.present && w.provenance(p).sound)
    ensures more == if p == OUTPUT || p !in w.tree.present then rows else rows + [RowOf(w, p)]
    ensures PathsOf(more) == if p == OUTPUT || p !in w.tree.present then PathsOf(rows) else PathsOf(rows) + [p]
  {
    more, worse := rows, problems;
    if p != OUTPUT {
      if p !in w.tree.present {
        worse := problems + [p];
      } else {
        if !w.provenance(p).sound { worse := problems + [p]; }
        more := rows + [RowOf(w, p)];
      }
    }
  }

  /** The row loop of `classify`, then the sort. */
  method Classify(w: World) returns (rows: seq<Row>, problems: seq<string>)
    ensures problems == [] <==> NoProblems(w)
    ensures problems == [] ==> rows == Rows(w)
  {
    var files := w.tree.files;
    rows, problems := [], [];
    for i := 0 to |files|
      invariant problems == [] <==> forall p :: p in files[..i] && p != OUTPUT ==>
        p in w.tree.present && w.provenance(p).sound
      invariant forall r :: r in rows ==> r == RowOf(w, r.path)
      invariant problems == [] ==> PathsOf(rows) == Listed(files[..i])
    {
      assert files[..i + 1] == files[..i] + [files[i]];
      ListedNext(files[..i], files[i]);
      rows, problems := ClassifyOne(w, files[i], rows, problems);
    }
    assert files[..|files|] == files;
    SortPaths(rows);
    rows := SortRows(rows);
    if problems == [] { RowsFromPaths(w, rows); }
  }

  lemma {:induction false} ListedNext(files: seq<string>, p: string)
    ensures Listed(files + [p]) == if p == OUTPUT then Listed(files) else Listed(files) + [p]
  {
    if files == [] {
      assert files + [p] == [p];
      assert Listed([p][1..]) == [];
    } else {
      assert (files + [p])[1..] == files[1..] + [p];
      ListedNext(files[1..], p);
    }
  }

  lemma RowsFromPaths(w: World, rows: seq<Row>)
    requires PathsOf(rows) == Sorted(w.tree) && forall r :: r in rows ==> r == RowOf(w, r.path)
    ensures rows == Rows(w)
  {
    forall i | 0 <= i < |rows| ensures rows[i] == Rows(w)[i] {
      assert rows[i] in rows && rows[i].path == Sorted(w.tree)[i];
    }
  }

  /* ---------- the two payloads agree ---------- */

  lemma {:induction false} ListedDistinct(files: seq<string>)
    requires Order.Distinct(files)
    ensures Order.Distinct(Listed(files))
  {
    if files != [] {
      assert files[0] !in files[1..];
      ListedDistinct(files[1..]);
    }
  }

  lemma {:induction false} DistinctSize(s: seq<string>, keys: set<string>)
    requires Order.Distinct(s) && forall x :: x in s <==> x in keys
    ensures |s| == |keys|
    decreases |s|
  {
    if s == [] {
      assert keys == {};
    } else {
      assert s[0] !in s[1..];
      forall x ensures x in s[1..] <==> x in keys - {s[0]} {
        assert x in s <==> x == s[0] || x in s[1..];
      }
      DistinctSize(s[1..], keys - {s[0]});
    }
  }

  lemma {:induction false} PayloadAgrees(w: World, paths: seq<string>)
    requires forall p :: p in paths ==> p in Current(w.tree)
    ensures RowPayload(RowsFor(w, paths)) == Payload(paths, Current(w.tree))
    decreases |paths|
  {
    if paths != [] {
      assert RowsFor(w, paths)[1..] == RowsFor(w, paths[1..]);
      assert paths[0] in paths;
      PayloadAgrees(w, paths[1..]);
    }
  }

  /** As many rows as entries. */
  lemma RowCount(w: World)
    requires Order.Distinct(w.tree.files)
    ensures |Rows(w)| == |Current(w.tree)| && Order.Increasing(Sorted(w.tree))
  {
    var listed, sorted, current := Listed(w.tree.files), Sorted(w.tree), Current(w.tree);
    ListedDistinct(w.tree.files);
    Order.SortIncreasing(listed);
    assert |sorted| == |multiset(sorted)| == |multiset(listed)| == |listed|;
    assert forall p :: p in current.Keys <==> p in w.tree.files && p != OUTPUT;
    DistinctSize(listed, current.Keys);
    assert |current| == |current.Keys|;
  }

  /** The identity computed from the rows is the one recomputed from the tree. */
  lemma IdentityAgrees(w: World)
    requires Order.Distinct(w.tree.files)
    ensures Identity(w) == w.environment + Recomputed(w)
    ensures RowPayload(Rows(w)) == Payload(Sorted(w.tree), Current(w.tree))
  {
    RowCount(w);
    PayloadAgrees(w, Sorted(w.tree));
  }

  /* ---------- verification ---------- */

  datatype Failure =
    | NoHeading | BadRows(error: Error) | BadIdentity(error: Error) | Gone(path: string) | IdentityDiffers(key: string)
    | AuditDiffers(tag: Tag) | Unrecorded(path: string) | RowDiffers(path: string) | Extra(path: string)
    | Unsound(path: string) | PayloadDiffers | ProvenanceDiffers(path: string) | Unexcluded(path: string)

  /** The lines of a text that carry a tag. */
  function Tagged(lines: seq<string>, t: Tag): set<string> {
    set l | l in lines && StartsWith(l, Mark(t))
  }

  function Wanted(audit: seq<Audit>, t: Tag): set<string> {
    set l | l in AuditLines(audit) && StartsWith(l, Mark(t))
  }

  predicate Contains(text: string, part: string) {
    exists i :: 0 <= i <= |text| && part <= text[i..]
  }

  function Exclusive(e: Exclusion): string {
    "EXCLUDED\t" + e.path + "\t"
  }

  predicate SameIdentity(recorded: map<string, string>, expected: map<string, string>) {
    forall k :: k in expected ==> k in recorded && recorded[k] == expected[k]
  }

  predicate SameRows(recorded: map<string, Fields>, current: map<string, Entry>) {
    && (forall p :: p in current ==> p in recorded && Entry(recorded[p].destHash, recorded[p].destMode) == current[p])
    && (forall p :: p in recorded ==> p in current)
  }

  /** Everything `verify` asks about the destination. */
  ghost predicate DestinationPasses(keys: seq<string>, text: string, w: World) {
    && StartsWith(text, HEADING)
    && ParsedRows(text).Ok? && ParsedIdentity(keys, text).Ok?
    && (forall p :: p in w.tree.files && p != OUTPUT ==> p in w.tree.present)
    && SameIdentity(ParsedIdentity(keys, text).value, Recomputed(w))
    && Tagged(SplitLines(text), ModeMismatch) == Wanted(Mismatches(w.tree), ModeMismatch)
    && SameRows(ParsedRows(text).value, Current(w.tree))
  }

  /** What it asks besides when the checkouts are at hand. */
  ghost predicate SourcesPass(keys: seq<string>, text: string, w: World) {
    && NoProblems(w)
    && ParsedIdentity(keys, text).Ok? && SameIdentity(ParsedIdentity(keys, text).value, Identity(w))
    && (forall t: Tag :: !t.ModeMismatch? ==> Tagged(SplitLines(text), t) == Wanted(w.audit, t))
    && w.sha(RowPayload(Rows(w))) == w.sha(Payload(Sorted(w.tree), Current(w.tree)))
    && RowsConfirmed(text, Rows(w))
    && (forall e :: e in w.excluded ==> Contains(text, Exclusive(e)))
  }

  /** No recorded row contradicts these. */
  ghost predicate RowsConfirmed(text: string, rows: seq<Row>) {
    ParsedRows(text).Ok? ==>
      forall r :: r in rows && r.path in ParsedRows(text).value ==> ParsedRows(text).value[r.path] == FieldsOf(Parts(r))
  }

  method CheckRecorded(text: string, rows: seq<Row>) returns (failures: seq<Failure>)
    ensures failures == [] <==> RowsConfirmed(text, rows)
  {
    var recorded := ParseManifest(text);
    if recorded.Bad? { return []; }
    failures := CheckProvenance(recorded.value, rows);
  }

  method CheckIdentity(recorded: map<string, string>, expected: map<string, string>) returns (failures: seq<Failure>)
    ensures failures == [] <==> SameIdentity(recorded, expected)
  {
    failures := [];
    var todo := expected.Keys;
    while todo != {}
      invariant todo <= expected.Keys
      invariant failures == [] <==> forall k :: k in expected.Keys - todo ==>
        k in recorded && recorded[k] == expected[k]
    {
      var k :| k in todo;
      if k !in recorded || recorded[k] != expected[k] { failures := failures + [IdentityDiffers(k)]; }
      todo := todo - {k};
    }
  }

  method CheckRows(recorded: map<string, Fields>, current: map<string, Entry>) returns (failures: seq<Failure>)
    ensures failures == [] <==> SameRows(recorded, current)
  {
    failures := [];
    var todo := current.Keys;
    while todo != {}
      invariant todo <= current.Keys
      invariant failures == [] <==> forall p :: p in current.Keys - todo ==>
                  p in recorded && Entry(recorded[p].destHash, recorded[p].destMode) == current[p]
    {
      var p :| p in todo;
      if p !in recorded {
        failures := failures + [Unrecorded(p)];
      } else if Entry(recorded[p].destHash, recorded[p].destMode) != current[p] {
        failures := failures + [RowDiffers(p)];
      }
      todo := todo - {p};
    }
    var rest := recorded.Keys;
    ghost var before := failures;
    while rest != {}
      invariant rest <= recorded.Keys
      invariant failures == [] <==> before == [] && forall p :: p in recorded.Keys - rest ==> p in current
    {
      var p :| p in rest;
      if p !in current { failures := failures + [Extra(p)]; }
      rest := rest - {p};
    }
  }

  method CheckPresent(t: Tree) returns (failures: seq<Failure>)
    ensures failures == [] <==> forall p :: p in t.files && p != OUTPUT ==> p in t.present
  {
    failures := [];
    for i := 0 to |t.files|
      invariant failures == [] <==> forall p :: p in t.files[..i] && p != OUTPUT ==> p in t.present
    {
      assert t.files[..i + 1] == t.files[..i] + [t.files[i]];
      if t.files[i] != OUTPUT && t.files[i] !in t.present { failures := failures + [Gone(t.files[i])]; }
    }
    assert t.files[..|t.files|] == t.files;
  }

  method CheckSound(w: World) returns (failures: seq<Failure>)
    ensures failures == [] <==> NoProblems(w)
  {
    failures := [];
    var files := w.tree.files;
    for i := 0 to |files|
      invariant failures == [] <==> forall p :: p in files[..i] && p != OUTPUT ==>
        p in w.tree.present && w.provenance(p).sound
    {
      assert files[..i + 1] == files[..i] + [files[i]];
      if files[i] != OUTPUT && !(files[i] in w.tree.present && w.provenance(files[i]).sound) {
        failures := failures + [Unsound(files[i])];
      }
    }
    assert files[..|files|] == files;
  }

  method CheckProvenance(recorded: map<string, Fields>, rows: seq<Row>) returns (failures: seq<Failure>)
    ensures failures == [] <==> forall r :: r in rows && r.path in recorded ==> recorded[r.path] == FieldsOf(Parts(r))
  {
    failures := [];
    for i := 0 to |rows|
      invariant failures == [] <==> forall r :: r in rows[..i] && r.path in recorded ==>
        recorded[r.path] == FieldsOf(Parts(r))
    {
      assert rows[..i + 1] == rows[..i] + [rows[i]];
      if rows[i].path in recorded && recorded[rows[i].path] != FieldsOf(Parts(rows[i])) {
        failures := failures + [ProvenanceDiffers(rows[i].path)];
      }
    }
    assert rows[..|rows|] == rows;
  }

  method CheckExcluded(text: string, excluded: seq<Exclusion>) returns (failures: seq<Failure>)
    ensures failures == [] <==> forall e :: e in excluded ==> Contains(text, Exclusive(e))
  {
    failures := [];
    for i := 0 to |excluded|
      invariant failures == [] <==> forall e :: e in excluded[..i] ==> Contains(text, Exclusive(e))
    {
      assert excluded[..i + 1] == excluded[..i] + [excluded[i]];
      if !Contains(text, Exclusive(excluded[i])) { failures := failures + [Unexcluded(excluded[i].path)]; }
    }
    assert excluded[..|excluded|] == excluded;
  }

  /** The destination half of `verify`. */
  method VerifyDestination(keys: seq<string>, text: string, w: World) returns (failures: seq<Failure>)
    ensures failures == [] <==> DestinationPasses(keys, text, w)
  {
    failures := if StartsWith(text, HEADING) then [] else [NoHeading];
    var rows := ParseManifest(text);
    if rows.Bad? { failures := failures + [BadRows(rows.error)]; }
    var identity := ParseIdentity(keys, text);
    if identity.Bad? { failures := failures + [BadIdentity(identity.error)]; }
    var more := CheckPresent(w.tree);
    failures := failures + more;
    if identity.Ok? {
      more := CheckIdentity(identity.value, Recomputed(w));
      failures := failures + more;
      if Tagged(SplitLines(text), ModeMismatch) != Wanted(Mismatches(w.tree), ModeMismatch) {
        failures := failures + [AuditDiffers(ModeMismatch)];
      }
    }
    if rows.Ok? {
      more := CheckRows(rows.value, Current(w.tree));
      failures := failures + more;
    }
  }

  /** The source-aware half of `verify`. */
  method VerifySources(keys: seq<string>, text: string, w: World) returns (failures: seq<Failure>)
    ensures failures == [] <==> SourcesPass(keys, text, w)
  {
    failures := CheckSound(w);
    var more := CheckRecomputed(keys, text, w);
    failures := failures + more;
    more := CheckAudit(SplitLines(text), w.audit);
    failures := failures + more;
    if w.sha(RowPayload(Rows(w))) != w.sha(Payload(Sorted(w.tree), Current(w.tree))) {
      failures := failures + [PayloadDiffers];
    }
    more := CheckRecorded(text, Rows(w));
    failures := failures + more;
    more := CheckExcluded(text, w.excluded);
    failures := failures + more;
  }

  method CheckRecomputed(keys: seq<string>, text: string, w: World) returns (failures: seq<Failure>)
    ensures failures == [] <==>
              ParsedIdentity(keys, text).Ok? && SameIdentity(ParsedIdentity(keys, text).value, Identity(w))
  {
    var identity := ParseIdentity(keys, text);
    if identity.Bad? { return [BadIdentity(identity.error)]; }
    failures := CheckIdentity(identity.value, Identity(w));
  }

  method CheckAudit(lines: seq<string>, audit: seq<Audit>) returns (failures: seq<Failure>)
    ensures failures == [] <==> forall t: Tag :: !t.ModeMismatch? ==> Tagged(lines, t) == Wanted(audit, t)
  {
    failures := [];
    if Tagged(lines, Dirty) != Wanted(audit, Dirty) { failures := failures + [AuditDiffers(Dirty)]; }
    if Tagged(lines, Relocation) != Wanted(audit, Relocation) { failures := failures + [AuditDiffers(Relocation)]; }
    if Tagged(lines, Companion) != Wanted(audit, Companion) { failures := failures + [AuditDiffers(Companion)]; }
  }

  /** The row records this file. */
  predicate RowShows(f: Fields, e: Entry) {
    f.destHash == e.hash && f.destMode == e.mode
  }

  /** The recorded map of paths to hashes and modes. */
  function Entries(recorded: map<string, Fields>): map<string, Entry> {
    map p | p in recorded :: Entry(recorded[p].destHash, recorded[p].destMode)
  }

  lemma SameRowsSameMap(recorded: map<string, Fields>, current: map<string, Entry>)
    ensures SameRows(recorded, current) <==> Entries(recorded) == current
  {
    if Entries(recorded) == current {
      forall p | p in current ensures p in Entries(recorded) {
      }
    }
  }

  /** `verify` of the file as stored, with or without the other checkouts. Without failure the recorded
      paths, hashes and modes are the working tree's. */
  method Verify(keys: seq<string>, file: string, w: World, checkouts: bool) returns (failures: seq<Failure>)
    ensures failures == [] <==>
              DestinationPasses(keys, ReadText(file), w) && (checkouts ==> SourcesPass(keys, ReadText(file), w))
    ensures failures == [] ==> ParsedRows(ReadText(file)).Ok?
    ensures failures == [] ==> Entries(ParsedRows(ReadText(file)).value) == Current(w.tree)
    ensures failures == [] ==> Current(w.tree).Keys <= w.tree.present.Keys
    ensures failures == [] ==> forall p :: p in w.tree.files && p != OUTPUT ==>
      p in w.tree.present && p in ParsedRows(ReadText(file)).value
      && RowShows(ParsedRows(ReadText(file)).value[p], w.tree.present[p])
  {
    var text := ReadText(file);
    if ParsedRows(text).Ok? { SameRowsSameMap(ParsedRows(text).value, Current(w.tree)); }
    failures := VerifyDestination(keys, text, w);
    if checkouts {
      var more := VerifySources(keys, text, w);
      failures := failures + more;
    }
  }

  /* ---------- generate, then verify ---------- */

  lemma TextUnchanged(keys: seq<string>, c: Content)
    requires WellFormed(keys, c)
    ensures ReadText(Render(keys, c)) == Render(keys, c)
    ensures StartsWith(Render(keys, c), HEADING)
  {
    var lines := Lines(keys, c);
    forall i | 0 <= i < |lines| ensures NoBreaks(lines[i]) {
      LineUnbroken(keys, c, lines[i]);
    }
    NoReturns(lines);
    assert lines[0] == c.prose[0];
    assert lines[0] <= JoinLines(lines);
  }

  /** Only audit lines carry tags. */
  lemma TagsReadBack(keys: seq<string>, c: Content, t: Tag)
    requires WellFormed(keys, c)
    ensures Tagged(Lines(keys, c), t) == Wanted(c.audit, t)
  {
    var lines := Lines(keys, c);
    forall l | l in lines && StartsWith(l, Mark(t)) ensures l in AuditLines(c.audit) {
      TagOnlyInAudit(keys, c, t, l);
    }
    forall l | l in AuditLines(c.audit) ensures l in lines {
      assert l in Comments(c);
    }
  }

  lemma TagOnlyInAudit(keys: seq<string>, c: Content, t: Tag, l: string)
    requires WellFormed(keys, c) && l in Lines(keys, c) && StartsWith(l, Mark(t))
    ensures l in AuditLines(c.audit)
  {
    if l in Comments(c) {
      CommentsMarked(keys, c, l);
    } else {
      Untagged(keys, c, t, l);
    }
  }

  lemma Untagged(keys: seq<string>, c: Content, t: Tag, l: string)
    requires WellFormed(keys, c)
    requires l in c.prose || l in IdentityLines(keys, c.identity) || l in RowLines(c.rows)
    ensures !StartsWith(l, Mark(t))
  {
    if l in c.prose {
      assert l in c.prose + c.notes + c.remarks + c.closing;
    } else if l in IdentityLines(keys, c.identity) {
      assert l[2] == 'i';
      Differs(l, Mark(t), 2);
    } else {
      var i :| 0 <= i < |c.rows| && RowLines(c.rows)[i] == l;
      assert c.rows[i] in c.rows;
      RowLineData(c.rows[i]);
    }
  }

  lemma WantedSplits(a: seq<Audit>, b: seq<Audit>, t: Tag)
    requires forall x :: x in a + b ==> NoBreaks(x.data)
    requires forall x :: x in a ==> !x.tag.ModeMismatch?
    requires forall x :: x in b ==> x.tag.ModeMismatch?
    ensures Wanted(a + b, t) == if t.ModeMismatch? then Wanted(b, t) else Wanted(a, t)
  {
    assert AuditLines(a + b) == AuditLines(a) + AuditLines(b);
    forall l | l in AuditLines(a) ensures StartsWith(l, Mark(t)) ==> !t.ModeMismatch? {
      var i :| 0 <= i < |a| && AuditLines(a)[i] == l;
      assert a[i] in a + b;
      AuditLineMarked(a[i]);
    }
    forall l | l in AuditLines(b) ensures StartsWith(l, Mark(t)) ==> t.ModeMismatch? {
      var i :| 0 <= i < |b| && AuditLines(b)[i] == l;
      assert b[i] in a + b && b[i] in b;
      AuditLineMarked(b[i]);
    }
  }

  lemma {:induction false} DifferingTagged(t: Tree, paths: seq<string>)
    ensures forall x :: x in Differing(t, paths) ==> x.tag.ModeMismatch?
    decreases |paths|
  {
    if paths != [] { DifferingTagged(t, paths[1..]); }
  }

  lemma RowsHold(w: World)
    requires DistinctPaths(Rows(w))
    ensures SameRows(RowMap(Rows(w)), Current(w.tree))
  {
    var rows, sorted := Rows(w), Sorted(w.tree);
    RowMapKeys(rows);
    forall p | p in Current(w.tree)
      ensures p in RowMap(rows) && Entry(RowMap(rows)[p].destHash, RowMap(rows)[p].destMode) == Current(w.tree)[p]
    {
      assert p in sorted;
      var i :| 0 <= i < |sorted| && sorted[i] == p;
      assert rows[i] == RowOf(w, p);
      RowMapValue(rows, i);
    }
    forall p | p in RowMap(rows) ensures p in Current(w.tree) {
      var i :| 0 <= i < |rows| && rows[i].path == p;
      assert sorted[i] in sorted;
    }
  }

  lemma RowsRecorded(rows: seq<Row>)
    requires DistinctPaths(rows)
    ensures forall r :: r in rows ==> r.path in RowMap(rows) && RowMap(rows)[r.path] == FieldsOf(Parts(r))
  {
    forall r | r in rows ensures r.path in RowMap(rows) && RowMap(rows)[r.path] == FieldsOf(Parts(r)) {
      var i :| 0 <= i < |rows| && rows[i] == r;
      RowMapValue(rows, i);
    }
  }

  lemma {:induction false} LineContained(lines: seq<string>, k: nat, before: string, part: string, after: string)
    requires k < |lines| && lines[k] == before + part + after
    ensures Contains(JoinLines(lines), part)
    decreases |lines|
  {
    var text := JoinLines(lines);
    if k == 0 {
      assert text[|before|..] == part + (after + "\n" + JoinLines(lines[1..]));
    } else {
      var rest := JoinLines(lines[1..]);
      LineContained(lines[1..], k - 1, before, part, after);
      var i :| 0 <= i <= |rest| && part <= rest[i..];
      var j := |lines[0]| + 1 + i;
      assert text == lines[0] + "\n" + rest;
      assert text[j..] == rest[i..];
    }
  }

  lemma ExclusionsKept(keys: seq<string>, c: Content, e: Exclusion)
    requires WellFormed(keys, c) && e in c.excluded
    ensures Contains(Render(keys, c), Exclusive(e))
  {
    var i :| 0 <= i < |c.excluded| && c.excluded[i] == e;
    assert ExclusionLines(c.excluded)[i] == ExclusionLine(e);
    assert ExclusionLine(e) in Comments(c);
    assert ExclusionLine(e) in Lines(keys, c);
    var k :| 0 <= k < |Lines(keys, c)| && Lines(keys, c)[k] == ExclusionLine(e);
    LineContained(Lines(keys, c), k, "#   ", Exclusive(e), e.reason);
  }

  /** The destination half accepts what was generated from the same world. */
  lemma UnchangedDestination(keys: seq<string>, w: World)
    requires WellFormed(keys, Generated(w)) && NoProblems(w) && Order.Distinct(w.tree.files)
    requires forall a :: a in w.audit ==> !a.tag.ModeMismatch?
    ensures DestinationPasses(keys, Render(keys, Generated(w)), w)
  {
    var c := Generated(w);
    TextUnchanged(keys, c);
    RowsReadBack(keys, c);
    IdentityReadBack(keys, c);
    LinesReadBack(keys, c);
    IdentityAgrees(w);
    TagsReadBack(keys, c, ModeMismatch);
    DifferingTagged(w.tree, Sorted(w.tree));
    WantedSplits(w.audit, Mismatches(w.tree), ModeMismatch);
    RowsHold(w);
  }

  lemma UnchangedSources(keys: seq<string>, w: World)
    requires WellFormed(keys, Generated(w)) && NoProblems(w) && Order.Distinct(w.tree.files)
    requires forall a :: a in w.audit ==> !a.tag.ModeMismatch?
    ensures SourcesPass(keys, Render(keys, Generated(w)), w)
  {
    var c := Generated(w);
    var text := Render(keys, c);
    RowsReadBack(keys, c);
    IdentityReadBack(keys, c);
    LinesReadBack(keys, c);
    IdentityAgrees(w);
    DifferingTagged(w.tree, Sorted(w.tree));
    forall t: Tag | !t.ModeMismatch? ensures Tagged(SplitLines(text), t) == Wanted(w.audit, t) {
      TagsReadBack(keys, c, t);
      WantedSplits(w.audit, Mismatches(w.tree), t);
    }
    RowsRecorded(Rows(w));
    forall e | e in w.excluded ensures Contains(text, Exclusive(e)) {
      ExclusionsKept(keys, c, e);
    }
  }

  /** `verify` right after generation, nothing having changed, reports no failure. */
  method GenerateThenVerify(keys: seq<string>, w: World, checkouts: bool) returns (failures: seq<Failure>)
    requires WellFormed(keys, Generated(w)) && NoProblems(w) && Order.Distinct(w.tree.files)
    requires forall a :: a in w.audit ==> !a.tag.ModeMismatch?
    ensures failures == []
  {
    TextUnchanged(keys, Generated(w));
    UnchangedDestination(keys, w);
    UnchangedSources(keys, w);
    failures := Verify(keys, Render(keys, Generated(w)), w, checkouts);
  }
}
