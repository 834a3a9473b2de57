/** The migration manifest as text (`generate-migration-manifest.py`): how rows and identity are
    written, and how the two parsers read them back. */
module Manifest {
  import opened Text
  import Order

  datatype Row = Row(destHash: string, destMode: string, srcHash: string, srcMode: string, origin: string,
                     state: string, path: string)
  datatype Fields = Fields(destHash: string, destMode: string, srcHash: string, srcMode: string, origin: string,
                           state: string)

  /** A comment line with tab-separated data: `# dirty`, `# relocation`, `# companion` or
      `# mode-mismatch`. */
  datatype Tag = Dirty | Relocation | Companion | ModeMismatch
  datatype Audit = Audit(tag: Tag, data: string)
  datatype Exclusion = Exclusion(path: string, reason: string)

  /** What `render` prints. `prose` and `notes` are the comment lines before and after the identity
      block that carry nothing a reader takes back. */
  datatype Content = Content(prose: seq<string>, identity: map<string, string>, notes: seq<string>, audit: seq<Audit>,
                             remarks: seq<string>, excluded: seq<Exclusion>, closing: seq<string>, rows: seq<Row>)

  datatype Error = Malformed(line: nat) | Duplicate(line: nat) | Unknown(line: nat) | Missing
  datatype Outcome<T> = Ok(value: T) | Bad(error: Error)

  predicate StartsWith(s: string, prefix: string) {
    prefix <= s
  }

  const IDENTITY_MARK := "# identity\t"
  const HEADING := "# Migration manifest"

  function Mark(t: Tag): (r: string)
    ensures |r| > 3 && r[0] == '#' && r[1] == ' ' && r[2] == Letter(t)
  {
    match t
    case Dirty => "# dirty\t"
    case Relocation => "# relocation\t"
    case Companion => "# companion\t"
    case ModeMismatch => "# mode-mismatch\t"
  }

  function Letter(t: Tag): char {
    match t
    case Dirty => 'd'
    case Relocation => 'r'
    case Companion => 'c'
    case ModeMismatch => 'm'
  }

  /* ---------- printing ---------- */

  /** `c.join(parts)`. */
  function Join(parts: seq<string>, c: char): string
    requires |parts| > 0
  {
    if |parts| == 1 then parts[0] else parts[0] + [c] + Join(parts[1..], c)
  }

  function Parts(r: Row): seq<string> {
    [r.destHash, r.destMode, r.srcHash, r.srcMode, r.origin, r.state, r.path]
  }

  function RowLine(r: Row): string {
    Join(Parts(r), ' ')
  }

  function IdentityLine(key: string, value: string): string {
    IDENTITY_MARK + (key + ['\t'] + value)
  }

  function AuditLine(a: Audit): string {
    Mark(a.tag) + a.data
  }

  function ExclusionLine(e: Exclusion): string {
    "#   " + ("EXCLUDED\t" + e.path + "\t") + e.reason
  }

  function RowLines(rows: seq<Row>): seq<string> {
    seq(|rows|, i requires 0 <= i < |rows| => RowLine(rows[i]))
  }

  function IdentityLines(keys: seq<string>, identity: map<string, string>): seq<string>
    requires forall k :: k in keys ==> k in identity
  {
    seq(|keys|, i requires 0 <= i < |keys| => IdentityLine(keys[i], identity[keys[i]]))
  }

  function AuditLines(audit: seq<Audit>): seq<string> {
    seq(|audit|, i requires 0 <= i < |audit| => AuditLine(audit[i]))
  }

  function ExclusionLines(excluded: seq<Exclusion>): seq<string> {
    seq(|excluded|, i requires 0 <= i < |excluded| => ExclusionLine(excluded[i]))
  }

  /** The comment lines after the identity block. */
  function Comments(c: Content): seq<string> {
    c.notes + AuditLines(c.audit) + c.remarks + ExclusionLines(c.excluded) + c.closing
  }

  function Lines(keys: seq<string>, c: Content): seq<string>
    requires forall k :: k in keys ==> k in c.identity
  {
    c.prose + IdentityLines(keys, c.identity) + Comments(c) + RowLines(c.rows)
  }

  /** `render`. */
  function Render(keys: seq<string>, c: Content): string
    requires forall k :: k in keys ==> k in c.identity
  {
    JoinLines(Lines(keys, c))
  }

  /* ---------- parsing ---------- */

  /** `s.split(c, n)`. */
  function SplitMost(s: string, c: char, n: nat): (r: seq<string>)
    ensures 1 <= |r| <= n + 1
  {
    if n == 0 || c !in s then [s]
    else
      var h := Before(s, c);
      [h] + SplitMost(s[|h| + 1..], c, n - 1)
  }

  predicate Comment(line: string) {
    line == "" || line[0] == '#'
  }

  function FieldsOf(parts: seq<string>): Fields
    requires |parts| == 7
  {
    Fields(parts[0], parts[1], parts[2], parts[3], parts[4], parts[5])
  }

  /** `parse_manifest` from line `n` on, with the rows read before it. */
  function RowsFrom(lines: seq<string>, n: nat, rows: map<string, Fields>): Outcome<map<string, Fields>>
    requires n <= |lines|
    decreases |lines| - n
  {
    if n == |lines| then Ok(rows)
    else if Comment(lines[n]) then RowsFrom(lines, n + 1, rows)
    else
      var parts := SplitMost(lines[n], ' ', 6);
      if |parts| != 7 then Bad(Malformed(n + 1))
      else if parts[6] in rows then Bad(Duplicate(n + 1))
      else RowsFrom(lines, n + 1, rows[parts[6] := FieldsOf(parts)])
  }

  /** `parse_identity` from line `n` on. */
  function IdentityFrom(keys: seq<string>, lines: seq<string>, n: nat,
                        identity: map<string, string>): Outcome<map<string, string>>
    requires n <= |lines|
    decreases |lines| - n
  {
    if n == |lines| then
      if forall k :: k in keys ==> k in identity then Ok(identity) else Bad(Missing)
    else if !StartsWith(lines[n], IDENTITY_MARK) then IdentityFrom(keys, lines, n + 1, identity)
    else
      var parts := Split(lines[n], '\t');
      if |parts| != 3 then Bad(Malformed(n + 1))
      else if parts[1] !in keys then Bad(Unknown(n + 1))
      else if parts[1] in identity then Bad(Duplicate(n + 1))
      else IdentityFrom(keys, lines, n + 1, identity[parts[1] := parts[2]])
  }

  function ParsedRows(text: string): Outcome<map<string, Fields>> {
    RowsFrom(SplitLines(text), 0, map[])
  }

  function ParsedIdentity(keys: seq<string>, text: string): Outcome<map<string, string>> {
    IdentityFrom(keys, SplitLines(text), 0, map[])
  }

  /* ---------- which texts are accepted, and as what ---------- */

  /** A line that must be a row, and is one. */
  predicate HasRow(line: string) {
    !Comment(line) && |SplitMost(line, ' ', 6)| == 7
  }

  function PathOf(line: string): string {
    if HasRow(line) then SplitMost(line, ' ', 6)[6] else ""
  }

  /** From line `n` on there are only comments and rows, and no path twice or already known. */
  ghost predicate GoodRows(lines: seq<string>, n: nat, known: set<string>) {
    && (forall i :: n <= i < |lines| ==> Comment(lines[i]) || HasRow(lines[i]))
    && (forall i :: n <= i < |lines| && HasRow(lines[i]) ==> PathOf(lines[i]) !in known)
    && (forall i, j :: n <= i < j < |lines| && HasRow(lines[i]) && HasRow(lines[j]) ==>
          PathOf(lines[i]) != PathOf(lines[j]))
  }

  lemma GoodRowsNext(lines: seq<string>, n: nat, known: set<string>)
    requires n < |lines|
    ensures GoodRows(lines, n, known) <==>
      if Comment(lines[n]) then GoodRows(lines, n + 1, known)
      else HasRow(lines[n]) && PathOf(lines[n]) !in known && GoodRows(lines, n + 1, known + {PathOf(lines[n])})
  {
  }

  lemma {:induction false} RowsFromExactly(lines: seq<string>, n: nat, rows: map<string, Fields>)
    requires n <= |lines|
    ensures RowsFrom(lines, n, rows).Ok? <==> GoodRows(lines, n, rows.Keys)
    ensures RowsFrom(lines, n, rows).Ok? ==> rows.Keys <= RowsFrom(lines, n, rows).value.Keys
    ensures RowsFrom(lines, n, rows).Ok? ==> forall p :: p in rows ==> RowsFrom(lines, n, rows).value[p] == rows[p]
    decreases |lines| - n
  {
    if n < |lines| {
      GoodRowsNext(lines, n, rows.Keys);
      if Comment(lines[n]) {
        RowsFromExactly(lines, n + 1, rows);
      } else if HasRow(lines[n]) && PathOf(lines[n]) !in rows {
        var more := rows[PathOf(lines[n]) := FieldsOf(SplitMost(lines[n], ' ', 6))];
        assert more.Keys == rows.Keys + {PathOf(lines[n])};
        RowsFromExactly(lines, n + 1, more);
      }
    }
  }

  lemma {:induction false} RowsFromHolds(lines: seq<string>, n: nat, rows: map<string, Fields>, i: nat)
    requires n <= i < |lines| && RowsFrom(lines, n, rows).Ok? && HasRow(lines[i])
    ensures PathOf(lines[i]) in RowsFrom(lines, n, rows).value
    ensures RowsFrom(lines, n, rows).value[PathOf(lines[i])] == FieldsOf(SplitMost(lines[i], ' ', 6))
    decreases |lines| - n
  {
    var more := if Comment(lines[n]) then rows else rows[PathOf(lines[n]) := FieldsOf(SplitMost(lines[n], ' ', 6))];
    if n == i {
      RowsFromExactly(lines, n + 1, more);
    } else {
      RowsFromHolds(lines, n + 1, more, i);
    }
  }

  lemma {:induction false} RowsFromOnly(lines: seq<string>, n: nat, rows: map<string, Fields>, p: string)
    requires n <= |lines| && RowsFrom(lines, n, rows).Ok? && p in RowsFrom(lines, n, rows).value
    ensures p in rows || exists i :: n <= i < |lines| && HasRow(lines[i]) && PathOf(lines[i]) == p
    decreases |lines| - n
  {
    if n < |lines| {
      var more := if Comment(lines[n]) then rows else rows[PathOf(lines[n]) := FieldsOf(SplitMost(lines[n], ' ', 6))];
      RowsFromOnly(lines, n + 1, more, p);
    }
  }

  /** A manifest is accepted if and only if every line is a comment or a row of seven fields and no path
      comes twice; it is then read as exactly its rows. */
  lemma ManifestExactly(text: string, p: string)
    ensures ParsedRows(text).Ok? <==> GoodRows(SplitLines(text), 0, {})
    ensures ParsedRows(text).Ok? ==>
      (p in ParsedRows(text).value <==>
        exists i :: 0 <= i < |SplitLines(text)| && HasRow(SplitLines(text)[i]) && PathOf(SplitLines(text)[i]) == p)
    ensures ParsedRows(text).Ok? ==>
      forall i :: 0 <= i < |SplitLines(text)| && HasRow(SplitLines(text)[i]) && PathOf(SplitLines(text)[i]) == p ==>
        ParsedRows(text).value[p] == FieldsOf(SplitMost(SplitLines(text)[i], ' ', 6))
  {
    var lines := SplitLines(text);
    var none: map<string, Fields> := map[];
    assert none.Keys == {};
    RowsFromExactly(lines, 0, none);
    if RowsFrom(lines, 0, none).Ok? {
      forall i | 0 <= i < |lines| && HasRow(lines[i])
        ensures PathOf(lines[i]) in ParsedRows(text).value
        ensures ParsedRows(text).value[PathOf(lines[i])] == FieldsOf(SplitMost(lines[i], ' ', 6))
      {
        RowsFromHolds(lines, 0, none, i);
      }
      if p in ParsedRows(text).value { RowsFromOnly(lines, 0, none, p); }
    }
  }

  predicate Marked(line: string) {
    StartsWith(line, IDENTITY_MARK)
  }

  /** The key a marked line of three fields gives a value to. */
  function KeyOf(line: string): string {
    if |Split(line, '\t')| == 3 then Split(line, '\t')[1] else ""
  }

  predicate GoodLine(keys: seq<string>, line: string, known: set<string>) {
    |Split(line, '\t')| == 3 && KeyOf(line) in keys && KeyOf(line) !in known
  }

  /** From line `n` on every marked line has three fields and a key of the list, none twice or known. */
  ghost predicate GoodIdentity(keys: seq<string>, lines: seq<string>, n: nat, known: set<string>) {
    && (forall i :: n <= i < |lines| && Marked(lines[i]) ==> GoodLine(keys, lines[i], known))
    && (forall i, j :: n <= i < j < |lines| && Marked(lines[i]) && Marked(lines[j]) ==>
          KeyOf(lines[i]) != KeyOf(lines[j]))
  }

  ghost predicate Complete(keys: seq<string>, lines: seq<string>, n: nat, known: set<string>) {
    forall k :: k in keys ==> k in known || exists i :: n <= i < |lines| && Marked(lines[i]) && KeyOf(lines[i]) == k
  }

  lemma GoodIdentityNext(keys: seq<string>, lines: seq<string>, n: nat, known: set<string>)
    requires n < |lines|
    ensures GoodIdentity(keys, lines, n, known) <==>
      if !Marked(lines[n]) then GoodIdentity(keys, lines, n + 1, known)
      else GoodLine(keys, lines[n], known) && GoodIdentity(keys, lines, n + 1, known + {KeyOf(lines[n])})
  {
  }

  lemma CompleteNext(keys: seq<string>, lines: seq<string>, n: nat, known: set<string>)
    requires n < |lines|
    ensures Complete(keys, lines, n, known) <==>
      Complete(keys, lines, n + 1, if Marked(lines[n]) then known + {KeyOf(lines[n])} else known)
  {
  }

  /** An identity is accepted if and only if every marked line gives one of the keys its value, no key
      comes twice, and none is missing. */
  lemma {:induction false} IdentityFromExactly(keys: seq<string>, lines: seq<string>, n: nat,
                                               identity: map<string, string>)
    requires n <= |lines|
    ensures IdentityFrom(keys, lines, n, identity).Ok? <==>
      GoodIdentity(keys, lines, n, identity.Keys) && Complete(keys, lines, n, identity.Keys)
    decreases |lines| - n
  {
    if n < |lines| {
      GoodIdentityNext(keys, lines, n, identity.Keys);
      CompleteNext(keys, lines, n, identity.Keys);
      if !Marked(lines[n]) {
        IdentityFromExactly(keys, lines, n + 1, identity);
      } else if GoodLine(keys, lines[n], identity.Keys) {
        var more := identity[KeyOf(lines[n]) := Split(lines[n], '\t')[2]];
        assert more.Keys == identity.Keys + {KeyOf(lines[n])};
        IdentityFromExactly(keys, lines, n + 1, more);
      }
    }
  }

  lemma IdentityExactly(keys: seq<string>, text: string)
    ensures ParsedIdentity(keys, text).Ok? <==>
      GoodIdentity(keys, SplitLines(text), 0, {}) && Complete(keys, SplitLines(text), 0, {})
  {
    var none: map<string, string> := map[];
    assert none.Keys == {};
    IdentityFromExactly(keys, SplitLines(text), 0, none);
  }

  /** `parse_manifest`. */
  method ParseManifest(text: string) returns (r: Outcome<map<string, Fields>>)
    ensures r == ParsedRows(text)
  {
    var lines := SplitLines(text);
    var rows: map<string, Fields> := map[];
    var n := 0;
    while n < |lines|
      invariant 0 <= n <= |lines|
      invariant RowsFrom(lines, n, rows) == RowsFrom(lines, 0, map[])
    {
      if !Comment(lines[n]) {
        var parts := SplitMost(lines[n], ' ', 6);
        if |parts| != 7 { return Bad(Malformed(n + 1)); }
        if parts[6] in rows { return Bad(Duplicate(n + 1)); }
        rows := rows[parts[6] := FieldsOf(parts)];
      }
      n := n + 1;
    }
    r := Ok(rows);
  }

  /** `parse_identity`. */
  method ParseIdentity(keys: seq<string>, text: string) returns (r: Outcome<map<string, string>>)
    ensures r == ParsedIdentity(keys, text)
  {
    var lines := SplitLines(text);
    var identity: map<string, string> := map[];
    var n := 0;
    while n < |lines|
      invariant 0 <= n <= |lines|
      invariant IdentityFrom(keys, lines, n, identity) == IdentityFrom(keys, lines, 0, map[])
    {
      if StartsWith(lines[n], IDENTITY_MARK) {
        var parts := Split(lines[n], '\t');
        if |parts| != 3 { return Bad(Malformed(n + 1)); }
        if parts[1] !in keys { return Bad(Unknown(n + 1)); }
        if parts[1] in identity { return Bad(Duplicate(n + 1)); }
        identity := identity[parts[1] := parts[2]];
      }
      n := n + 1;
    }
    r := if forall k :: k in keys ==> k in identity then Ok(identity) else Bad(Missing);
  }

  /* ---------- reading back what was printed ---------- */

  lemma SplitMostStep(a: string, c: char, b: string, n: nat)
    requires c !in a && n > 0
    ensures SplitMost(a + [c] + b, c, n) == [a] + SplitMost(b, c, n - 1)
  {
    var s := a + [c] + b;
    BeforeFirst(a, c, b);
    assert s[|a|] == c;
    assert s[|a| + 1..] == b;
  }

  lemma JoinStep(a: string, c: char, b: string, n: nat, parts: seq<string>)
    requires c !in a && n > 0 && SplitMost(b, c, n - 1) == parts
    ensures SplitMost(a + [c] + b, c, n) == [a] + parts
  {
    SplitMostStep(a, c, b, n);
  }

  /** Splitting undoes joining if only the last part contains the separator. */
  lemma {:induction false} JoinSplits(parts: seq<string>, c: char)
    requires |parts| > 0 && forall i :: 0 <= i < |parts| - 1 ==> c !in parts[i]
    ensures SplitMost(Join(parts, c), c, |parts| - 1) == parts
    decreases |parts|
  {
    if |parts| > 1 {
      var rest := parts[1..];
      forall i | 0 <= i < |rest| - 1 ensures c !in rest[i] {
        assert rest[i] == parts[i + 1];
      }
      JoinSplits(rest, c);
      var tail := Join(rest, c);
      JoinStep(parts[0], c, tail, |rest|, rest);
      assert [parts[0]] + rest == parts;
    }
  }

  lemma IdentityReadsBack(key: string, value: string)
    requires '\t' !in key && '\t' !in value
    ensures Split(IdentityLine(key, value), '\t') == ["# identity", key, value]
  {
    var tail := key + ['\t'] + value;
    var line := "# identity" + ['\t'] + tail;
    assert line == IdentityLine(key, value);
    assert '\t' !in "# identity";
    SplitStep("# identity", '\t', tail);
    SplitStep(key, '\t', value);
    assert Before(value, '\t') == value;
  }

  lemma SplitStep(a: string, c: char, b: string)
    requires c !in a
    ensures Split(a + [c] + b, c) == [a] + Split(b, c)
  {
    var s := a + [c] + b;
    BeforeFirst(a, c, b);
    assert s[|a|] == c;
    assert s[|a| + 1..] == b;
  }

  /* ---------- what may be printed ---------- */

  /** A comment no reader looks at. */
  predicate Plain(l: string) {
    NoBreaks(l) && |l| > 0 && l[0] == '#' && !StartsWith(l, IDENTITY_MARK) && forall t: Tag :: !StartsWith(l, Mark(t))
  }

  /** Six words and a path. */
  predicate Printable(r: Row) {
    && (forall i :: 0 <= i < 6 ==> ' ' !in Parts(r)[i]) && (forall i :: 0 <= i < 7 ==> NoBreaks(Parts(r)[i]))
    && |r.destHash| > 0 && r.destHash[0] != '#'
  }

  predicate DistinctPaths(rows: seq<Row>) {
    forall i, j :: 0 <= i < j < |rows| ==> rows[i].path != rows[j].path
  }

  /** No line separator anywhere, no tab in the identity, no blank in a row before its path. */
  ghost predicate WellFormed(keys: seq<string>, c: Content) {
    && Order.Distinct(keys) && (forall k :: k in keys <==> k in c.identity)
    && (forall k :: k in keys ==> '\t' !in k && NoBreaks(k) && '\t' !in c.identity[k] && NoBreaks(c.identity[k]))
    && (forall l :: l in c.prose + c.notes + c.remarks + c.closing ==> Plain(l))
    && c.prose != [] && StartsWith(c.prose[0], HEADING)
    && (forall a :: a in c.audit ==> NoBreaks(a.data))
    && (forall e :: e in c.excluded ==> NoBreaks(e.path) && NoBreaks(e.reason))
    && (forall r :: r in c.rows ==> Printable(r)) && DistinctPaths(c.rows)
  }

  /** What the rows say, path by path. */
  function RowMap(rows: seq<Row>): map<string, Fields> {
    if rows == [] then map[]
    else
      var r := rows[|rows| - 1];
      RowMap(rows[..|rows| - 1])[r.path := FieldsOf(Parts(r))]
  }

  predicate HasPath(rows: seq<Row>, p: string) {
    exists i :: 0 <= i < |rows| && rows[i].path == p
  }

  lemma {:induction false} RowMapKeys(rows: seq<Row>)
    ensures forall p :: p in RowMap(rows) <==> HasPath(rows, p)
    decreases |rows|
  {
    if rows != [] {
      var n := |rows| - 1;
      RowMapKeys(rows[..n]);
      forall p ensures p in RowMap(rows) <==> HasPath(rows, p) {
        HasPathLast(rows, p);
      }
    }
  }

  lemma HasPathLast(rows: seq<Row>, p: string)
    requires rows != []
    ensures HasPath(rows, p) <==> HasPath(rows[..|rows| - 1], p) || rows[|rows| - 1].path == p
  {
    var n := |rows| - 1;
    if HasPath(rows[..n], p) {
      var i :| 0 <= i < n && rows[..n][i].path == p;
      assert rows[i].path == p;
    }
    if HasPath(rows, p) {
      var i :| 0 <= i < |rows| && rows[i].path == p;
      assert i < n ==> rows[..n][i].path == p;
    }
  }

  lemma {:induction false} RowMapValue(rows: seq<Row>, i: nat)
    requires DistinctPaths(rows) && i < |rows|
    ensures rows[i].path in RowMap(rows) && RowMap(rows)[rows[i].path] == FieldsOf(Parts(rows[i]))
    decreases |rows|
  {
    var n := |rows| - 1;
    if i < n {
      assert rows[..n][i] == rows[i];
      RowMapValue(rows[..n], i);
    }
  }

  lemma {:induction false} SkipsComments(lines: seq<string>, n: nat, m: nat, rows: map<string, Fields>)
    requires n <= m <= |lines| && forall i :: n <= i < m ==> Comment(lines[i])
    ensures RowsFrom(lines, n, rows) == RowsFrom(lines, m, rows)
    decreases m - n
  {
    if n < m { SkipsComments(lines, n + 1, m, rows); }
  }

  lemma FirstOfJoin(parts: seq<string>, c: char)
    requires |parts| > 0 && |parts[0]| > 0
    ensures |Join(parts, c)| > 0 && Join(parts, c)[0] == parts[0][0]
  {
  }

  lemma ReadsRow(lines: seq<string>, n: nat, r: Row, rows: map<string, Fields>)
    requires n < |lines| && lines[n] == RowLine(r) && Printable(r) && r.path !in rows
    ensures RowsFrom(lines, n, rows) == RowsFrom(lines, n + 1, rows[r.path := FieldsOf(Parts(r))])
  {
    FirstOfJoin(Parts(r), ' ');
    JoinSplits(Parts(r), ' ');
  }

  lemma RowMapNext(rows: seq<Row>, k: nat)
    requires k < |rows| && DistinctPaths(rows)
    ensures rows[k].path !in RowMap(rows[..k])
    ensures RowMap(rows[..k + 1]) == RowMap(rows[..k])[rows[k].path := FieldsOf(Parts(rows[k]))]
  {
    RowMapKeys(rows[..k]);
    assert rows[..k + 1][..k] == rows[..k];
  }

  /** The last lines are the rows from the `k`-th on. */
  lemma {:induction false} ReadsRows(lines: seq<string>, at: nat, rows: seq<Row>, k: nat)
    requires k <= |rows| && at + |rows| == |lines|
    requires forall i :: 0 <= i < |rows| ==> lines[at + i] == RowLine(rows[i]) && Printable(rows[i])
    requires DistinctPaths(rows)
    ensures RowsFrom(lines, at + k, RowMap(rows[..k])) == Ok(RowMap(rows))
    decreases |rows| - k
  {
    if k == |rows| {
      assert rows[..k] == rows;
    } else {
      RowMapNext(rows, k);
      ReadsRow(lines, at + k, rows[k], RowMap(rows[..k]));
      ReadsRows(lines, at, rows, k + 1);
    }
  }

  lemma {:induction false} SkipsOthers(keys: seq<string>, lines: seq<string>, n: nat, m: nat,
                                       identity: map<string, string>)
    requires n <= m <= |lines| && forall i :: n <= i < m ==> !StartsWith(lines[i], IDENTITY_MARK)
    ensures IdentityFrom(keys, lines, n, identity) == IdentityFrom(keys, lines, m, identity)
    decreases m - n
  {
    if n < m { SkipsOthers(keys, lines, n + 1, m, identity); }
  }

  function Restrict(identity: map<string, string>, keys: seq<string>): map<string, string>
    requires forall k :: k in keys ==> k in identity
  {
    map k | k in keys :: identity[k]
  }

  lemma ReadsKey(keys: seq<string>, lines: seq<string>, n: nat, key: string, value: string,
                 identity: map<string, string>)
    requires n < |lines| && lines[n] == IdentityLine(key, value) && '\t' !in key && '\t' !in value
    requires key in keys && key !in identity
    ensures IdentityFrom(keys, lines, n, identity) == IdentityFrom(keys, lines, n + 1, identity[key := value])
  {
    IdentityReadsBack(key, value);
  }

  lemma RestrictNext(identity: map<string, string>, keys: seq<string>, k: nat)
    requires k < |keys| && Order.Distinct(keys) && forall q :: q in keys ==> q in identity
    ensures forall q :: q in keys[..k + 1] ==> q in keys
    ensures keys[k] !in keys[..k]
    ensures Restrict(identity, keys[..k + 1]) == Restrict(identity, keys[..k])[keys[k] := identity[keys[k]]]
  {
    assert keys[..k + 1] == keys[..k] + [keys[k]];
  }

  ghost predicate Tabless(identity: map<string, string>, keys: seq<string>) {
    forall q :: q in keys ==> q in identity && '\t' !in q && '\t' !in identity[q]
  }

  ghost predicate ShowsIdentity(keys: seq<string>, lines: seq<string>, at: nat, identity: map<string, string>)
    requires at + |keys| <= |lines| && Tabless(identity, keys)
  {
    forall i :: 0 <= i < |keys| ==> lines[at + i] == IdentityLine(keys[i], identity[keys[i]])
  }

  /** From the `k`-th identity line, at `lines[at + k]`, to the last. */
  lemma {:induction false} ReadsIdentity(keys: seq<string>, lines: seq<string>, at: nat, identity: map<string, string>,
                                         k: nat)
    requires k <= |keys| && at + |keys| <= |lines| && Order.Distinct(keys)
    requires Tabless(identity, keys) && ShowsIdentity(keys, lines, at, identity)
    requires forall q :: q in keys[..k] ==> q in keys
    ensures IdentityFrom(keys, lines, at + k, Restrict(identity, keys[..k]))
         == IdentityFrom(keys, lines, at + |keys|, Restrict(identity, keys))
    decreases |keys| - k
  {
    if k == |keys| {
      assert keys[..k] == keys;
    } else {
      RestrictNext(identity, keys, k);
      ReadsKey(keys, lines, at + k, keys[k], identity[keys[k]], Restrict(identity, keys[..k]));
      ReadsIdentity(keys, lines, at, identity, k + 1);
    }
  }

  /* ---------- the whole text ---------- */

  lemma {:induction false} JoinUnbroken(parts: seq<string>, c: char)
    requires |parts| > 0 && !IsBreak(c) && forall i :: 0 <= i < |parts| ==> NoBreaks(parts[i])
    ensures NoBreaks(Join(parts, c))
    decreases |parts|
  {
    if |parts| > 1 {
      forall i | 0 <= i < |parts[1..]| ensures NoBreaks(parts[1..][i]) {
        assert parts[1..][i] == parts[i + 1];
      }
      JoinUnbroken(parts[1..], c);
    }
  }

  lemma IdentityLineUnbroken(key: string, value: string)
    requires NoBreaks(key) && NoBreaks(value)
    ensures NoBreaks(IdentityLine(key, value)) && Comment(IdentityLine(key, value))
  {
    assert NoBreaks(IDENTITY_MARK);
  }

  lemma Differs(s: string, prefix: string, i: nat)
    requires i < |s| && i < |prefix| && s[i] != prefix[i]
    ensures !StartsWith(s, prefix)
  {
  }

  lemma AuditLineMarked(a: Audit)
    requires NoBreaks(a.data)
    ensures NoBreaks(AuditLine(a)) && Comment(AuditLine(a)) && !StartsWith(AuditLine(a), IDENTITY_MARK)
    ensures forall t: Tag :: StartsWith(AuditLine(a), Mark(t)) <==> t == a.tag
  {
    var l := AuditLine(a);
    assert NoBreaks(Mark(a.tag));
    assert l[2] == Letter(a.tag) && IDENTITY_MARK[2] == 'i';
    forall t: Tag ensures StartsWith(l, Mark(t)) <==> t == a.tag {
      if t != a.tag { Differs(l, Mark(t), 2); }
    }
  }

  lemma ExclusionLinePlain(e: Exclusion)
    requires NoBreaks(e.path) && NoBreaks(e.reason)
    ensures Plain(ExclusionLine(e))
  {
    var l := ExclusionLine(e);
    assert NoBreaks("#   ") && NoBreaks("EXCLUDED\t") && NoBreaks("\t");
    assert l[2] == ' ' && IDENTITY_MARK[2] == 'i';
    forall t: Tag ensures !StartsWith(l, Mark(t)) {
      Differs(l, Mark(t), 2);
    }
  }

  lemma RowLineData(r: Row)
    requires Printable(r)
    ensures NoBreaks(RowLine(r)) && !Comment(RowLine(r)) && !StartsWith(RowLine(r), IDENTITY_MARK)
    ensures forall t: Tag :: !StartsWith(RowLine(r), Mark(t))
  {
    JoinUnbroken(Parts(r), ' ');
    FirstOfJoin(Parts(r), ' ');
    assert IDENTITY_MARK[0] == '#';
    forall t: Tag ensures !StartsWith(RowLine(r), Mark(t)) {
      Differs(RowLine(r), Mark(t), 0);
    }
  }

  /** Every comment after the identity block is plain or an audit line. */
  lemma CommentsMarked(keys: seq<string>, c: Content, l: string)
    requires WellFormed(keys, c) && l in Comments(c)
    ensures NoBreaks(l) && Comment(l) && !StartsWith(l, IDENTITY_MARK)
    ensures forall t: Tag :: StartsWith(l, Mark(t)) ==> l in AuditLines(c.audit)
  {
    if l in AuditLines(c.audit) {
      var i :| 0 <= i < |c.audit| && AuditLines(c.audit)[i] == l;
      assert c.audit[i] in c.audit;
      AuditLineMarked(c.audit[i]);
    } else if l in ExclusionLines(c.excluded) {
      var i :| 0 <= i < |c.excluded| && ExclusionLines(c.excluded)[i] == l;
      assert c.excluded[i] in c.excluded;
      ExclusionLinePlain(c.excluded[i]);
    } else {
      assert l in c.prose + c.notes + c.remarks + c.closing;
    }
  }

  lemma LineUnbroken(keys: seq<string>, c: Content, l: string)
    requires WellFormed(keys, c) && l in Lines(keys, c)
    ensures NoBreaks(l)
  {
    if l in IdentityLines(keys, c.identity) {
      var i :| 0 <= i < |keys| && IdentityLines(keys, c.identity)[i] == l;
      assert keys[i] in keys;
      IdentityLineUnbroken(keys[i], c.identity[keys[i]]);
    } else if l in RowLines(c.rows) {
      var i :| 0 <= i < |c.rows| && RowLines(c.rows)[i] == l;
      assert c.rows[i] in c.rows;
      RowLineData(c.rows[i]);
    } else if l in Comments(c) {
      CommentsMarked(keys, c, l);
    } else {
      assert l in c.prose + c.notes + c.remarks + c.closing;
    }
  }

  lemma LinesReadBack(keys: seq<string>, c: Content)
    requires WellFormed(keys, c)
    ensures SplitLines(Render(keys, c)) == Lines(keys, c)
  {
    var lines := Lines(keys, c);
    forall i | 0 <= i < |lines| ensures NoBreaks(lines[i]) {
      LineUnbroken(keys, c, lines[i]);
    }
    SplitJoin(lines);
  }

  /** What stands before the rows. */
  lemma HeadLine(keys: seq<string>, c: Content, i: nat)
    requires WellFormed(keys, c) && i < |c.prose| + |keys| + |Comments(c)|
    ensures i < |Lines(keys, c)| && Comment(Lines(keys, c)[i])
    ensures i < |c.prose| || i >= |c.prose| + |keys| ==> !StartsWith(Lines(keys, c)[i], IDENTITY_MARK)
    ensures |c.prose| <= i < |c.prose| + |keys| ==>
              Lines(keys, c)[i] == IdentityLine(keys[i - |c.prose|], c.identity[keys[i - |c.prose|]])
  {
    var l := Lines(keys, c)[i];
    if i < |c.prose| {
      assert l == c.prose[i];
      assert l in c.prose + c.notes + c.remarks + c.closing;
    } else if i < |c.prose| + |keys| {
      var k := i - |c.prose|;
      assert l == IdentityLines(keys, c.identity)[k];
      assert keys[k] in keys;
      IdentityLineUnbroken(keys[k], c.identity[keys[k]]);
    } else {
      assert l == Comments(c)[i - |c.prose| - |keys|];
      CommentsMarked(keys, c, l);
    }
  }

  lemma RowAt(keys: seq<string>, c: Content, k: nat)
    requires WellFormed(keys, c) && k < |c.rows|
    ensures |Lines(keys, c)| == |c.prose| + |keys| + |Comments(c)| + |c.rows|
    ensures Lines(keys, c)[|c.prose| + |keys| + |Comments(c)| + k] == RowLine(c.rows[k]) && Printable(c.rows[k])
    ensures !StartsWith(RowLine(c.rows[k]), IDENTITY_MARK)
  {
    var at := |c.prose| + |keys| + |Comments(c)|;
    assert Lines(keys, c)[at + k] == RowLines(c.rows)[k];
    assert c.rows[k] in c.rows;
    RowLineData(c.rows[k]);
  }

  /** Comments, then rows. */
  lemma RowsOf(lines: seq<string>, at: nat, rows: seq<Row>)
    requires at + |rows| == |lines| && DistinctPaths(rows)
    requires forall i :: 0 <= i < at ==> Comment(lines[i])
    requires forall k :: 0 <= k < |rows| ==> lines[at + k] == RowLine(rows[k]) && Printable(rows[k])
    ensures RowsFrom(lines, 0, map[]) == Ok(RowMap(rows))
  {
    SkipsComments(lines, 0, at, map[]);
    assert rows[..0] == [];
    ReadsRows(lines, at, rows, 0);
  }

  /** Other lines, the identity block, other lines. */
  lemma IdentityOf(keys: seq<string>, lines: seq<string>, at: nat, identity: map<string, string>)
    requires at + |keys| <= |lines| && Order.Distinct(keys) && forall k :: k in keys <==> k in identity
    requires Tabless(identity, keys)
    requires forall i :: (0 <= i < at || at + |keys| <= i < |lines|) ==> !StartsWith(lines[i], IDENTITY_MARK)
    requires ShowsIdentity(keys, lines, at, identity)
    ensures IdentityFrom(keys, lines, 0, map[]) == Ok(identity)
  {
    SkipsOthers(keys, lines, 0, at, map[]);
    ReadsBlock(keys, lines, at, identity);
    SkipsOthers(keys, lines, at + |keys|, |lines|, identity);
  }

  lemma ReadsBlock(keys: seq<string>, lines: seq<string>, at: nat, identity: map<string, string>)
    requires at + |keys| <= |lines| && Order.Distinct(keys) && forall k :: k in keys <==> k in identity
    requires Tabless(identity, keys) && ShowsIdentity(keys, lines, at, identity)
    ensures IdentityFrom(keys, lines, at, map[]) == IdentityFrom(keys, lines, at + |keys|, identity)
  {
    assert Restrict(identity, keys[..0]) == map[];
    assert Restrict(identity, keys) == identity;
    ReadsIdentity(keys, lines, at, identity, 0);
  }

  /** Parsing the rendered manifest returns exactly its rows. */
  lemma RowsReadBack(keys: seq<string>, c: Content)
    requires WellFormed(keys, c)
    ensures ParsedRows(Render(keys, c)) == Ok(RowMap(c.rows))
  {
    LinesReadBack(keys, c);
    var lines, at := Lines(keys, c), |c.prose| + |keys| + |Comments(c)|;
    forall i: nat | i < at ensures Comment(lines[i]) {
      HeadLine(keys, c, i);
    }
    forall k: nat | k < |c.rows| ensures lines[at + k] == RowLine(c.rows[k]) && Printable(c.rows[k]) {
      RowAt(keys, c, k);
    }
    RowsOf(lines, at, c.rows);
  }

  /** Parsing the rendered manifest returns exactly its identity. */
  lemma IdentityReadBack(keys: seq<string>, c: Content)
    requires WellFormed(keys, c)
    ensures ParsedIdentity(keys, Render(keys, c)) == Ok(c.identity)
  {
    LinesReadBack(keys, c);
    var lines, at := Lines(keys, c), |c.prose|;
    forall i: nat | i < at || at + |keys| <= i < |lines| ensures !StartsWith(lines[i], IDENTITY_MARK) {
      if i < at + |keys| + |Comments(c)| {
        HeadLine(keys, c, i);
      } else {
        RowAt(keys, c, i - at - |keys| - |Comments(c)|);
      }
    }
    forall i: nat | i < |keys| ensures lines[at + i] == IdentityLine(keys[i], c.identity[keys[i]]) {
      HeadLine(keys, c, at + i);
    }
    IdentityOf(keys, lines, at, c.identity);
  }
}
