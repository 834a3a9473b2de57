/** The `.env` allowlist: how `harden-config.py` rewrites it and how
    `verify-contract.py` reads it back. */
module EnvFile {
  import opened Text

  /** The contract's `env` mapping, in insertion order. */
  datatype Allowlist = Allowlist(keys: seq<string>, values: map<string, string>) {
    ghost predicate Valid() {
      && (forall k :: k in values <==> k in keys)
      && (forall i, j :: 0 <= i < j < |keys| ==> keys[i] != keys[j])
    }
  }

  predicate IsAssignment(line: string) {
    '=' in line && !("#" <= LStrip(line))
  }

  function KeyOf(line: string): string {
    if IsAssignment(line) then Strip(Before(line, '=')) else ""
  }

  function ValueOf(line: string): string
    requires '=' in line
  {
    Strip(line[|Before(line, '=')| + 1..])
  }

  function Assignment(d: Allowlist, k: string): string
    requires k in d.values
  {
    k + "=" + d.values[k]
  }

  function RewriteLine(d: Allowlist, line: string): string {
    var k := KeyOf(line);
    if k in d.values then Assignment(d, k) else line
  }

  function RewriteLines(d: Allowlist, ls: seq<string>): (r: seq<string>)
    ensures |r| == |ls|
    ensures forall i :: 0 <= i < |ls| ==> r[i] == RewriteLine(d, ls[i])
  {
    seq(|ls|, i requires 0 <= i < |ls| => RewriteLine(d, ls[i]))
  }

  predicate Seen(ls: seq<string>, k: string) {
    exists i :: 0 <= i < |ls| && KeyOf(ls[i]) == k
  }

  lemma SeenLast(ls: seq<string>, l: string, k: string)
    ensures Seen(ls + [l], k) <==> Seen(ls, k) || KeyOf(l) == k
  {
    if i :| 0 <= i < |ls| && KeyOf(ls[i]) == k {
      assert (ls + [l])[i] == ls[i];
    }
    assert (ls + [l])[|ls|] == l;
  }

  /** The allowlist lines appended for keys no existing line assigns. */
  function Appended(d: Allowlist, ls: seq<string>, keys: seq<string>): (r: seq<string>)
    requires forall k :: k in keys ==> k in d.values
  {
    if keys == [] then []
    else (if Seen(ls, keys[0]) then [] else [Assignment(d, keys[0])]) + Appended(d, ls, keys[1..])
  }

  function RenderedLines(d: Allowlist, text: string): seq<string>
    requires d.Valid()
  {
    var ls := SplitLines(text);
    RewriteLines(d, ls) + Appended(d, ls, d.keys)
  }

  function Rendered(d: Allowlist, text: string): string
    requires d.Valid()
  {
    JoinLines(RenderedLines(d, text))
  }

  lemma SeenNext(ls: seq<string>, i: nat)
    requires i < |ls|
    ensures forall k :: Seen(ls[..i + 1], k) <==> Seen(ls[..i], k) || k == KeyOf(ls[i])
  {
    assert ls[..i + 1] == ls[..i] + [ls[i]];
    forall k ensures Seen(ls[..i + 1], k) <==> Seen(ls[..i], k) || k == KeyOf(ls[i]) {
      SeenLast(ls[..i], ls[i], k);
    }
  }

  /** The allowlisted keys that some line assigns. */
  ghost predicate SeenKeys(d: Allowlist, ls: seq<string>, seen: set<string>) {
    forall k :: k in seen <==> k in d.values && Seen(ls, k)
  }

  lemma SeenKeysNext(d: Allowlist, ls: seq<string>, i: nat, seen: set<string>, key: string)
    requires i < |ls| && SeenKeys(d, ls[..i], seen) && key == KeyOf(ls[i])
    ensures SeenKeys(d, ls[..i + 1], if key in d.values then seen + {key} else seen)
  {
    SeenNext(ls, i);
  }

  lemma RewriteNext(d: Allowlist, ls: seq<string>, i: nat)
    requires i < |ls|
    ensures RewriteLines(d, ls[..i + 1]) == RewriteLines(d, ls[..i]) + [RewriteLine(d, ls[i])]
  {
    assert ls[..i + 1] == ls[..i] + [ls[i]];
  }

  /** One line of that loop. */
  method RewriteOne(d: Allowlist, line: string) returns (r: string, key: string)
    ensures r == RewriteLine(d, line) && key == KeyOf(line)
  {
    key := KeyOf(line);
    r := if key in d.values then Assignment(d, key) else line;
  }

  /** The first loop of `render_env`: rewrite allowlisted lines, remember their keys. */
  method RewriteExisting(d: Allowlist, lines: seq<string>)
    returns (output: seq<string>, seen: set<string>)
    ensures output == RewriteLines(d, lines)
    ensures forall k :: k in seen <==> k in d.values && Seen(lines, k)
  {
    output, seen := [], {};
    var i := 0;
    while i < |lines|
      invariant 0 <= i <= |lines|
      invariant output == RewriteLines(d, lines[..i]) && SeenKeys(d, lines[..i], seen)
    {
      RewriteNext(d, lines, i);
      var line, key := RewriteOne(d, lines[i]);
      SeenKeysNext(d, lines, i, seen, key);
      output := output + [line];
      if key in d.values { seen := seen + {key}; }
      i := i + 1;
    }
    assert lines[..i] == lines;
  }

  /** The second loop of `render_env`: the keys not seen, in contract order. */
  method AppendUnseen(d: Allowlist, ghost lines: seq<string>, seen: set<string>)
    returns (extra: seq<string>)
    requires d.Valid()
    requires forall k :: k in d.keys ==> (k in seen <==> Seen(lines, k))
    ensures extra == Appended(d, lines, d.keys)
  {
    extra := [];
    var n := |d.keys|;
    while n > 0
      invariant 0 <= n <= |d.keys|
      invariant extra == Appended(d, lines, d.keys[n..])
    {
      n := n - 1;
      var key := d.keys[n];
      assert key in d.keys;
      assert d.keys[n..] == [key] + d.keys[n + 1..];
      if key !in seen {
        extra := [Assignment(d, key)] + extra;
      }
    }
    assert d.keys[0..] == d.keys;
  }

  /** `render_env`: rewrite in place, then append the keys not seen. */
  method RenderEnv(d: Allowlist, original: string) returns (updated: string)
    requires d.Valid()
    ensures updated == Rendered(d, original)
  {
    var lines := SplitLines(original);
    var output, seen := RewriteExisting(d, lines);
    var extra := AppendUnseen(d, lines, seen);
    updated := JoinLines(output + extra);
  }

  /** `parse_env`: the last assignment of each key wins. */
  function ParseLines(ls: seq<string>): map<string, string> {
    if ls == [] then map[]
    else
      var l := ls[|ls| - 1];
      var rest := ParseLines(ls[..|ls| - 1]);
      if IsAssignment(l) then rest[KeyOf(l) := ValueOf(l)] else rest
  }

  method ParseEnv(text: string) returns (values: map<string, string>)
    ensures values == ParseLines(SplitLines(text))
  {
    var lines := SplitLines(text);
    values := map[];
    var i := 0;
    while i < |lines|
      invariant 0 <= i <= |lines|
      invariant values == ParseLines(lines[..i])
    {
      assert lines[..i + 1][..i] == lines[..i];
      if IsAssignment(lines[i]) {
        values := values[Strip(Before(lines[i], '=')) := ValueOf(lines[i])];
      }
      i := i + 1;
    }
    assert lines[..i] == lines;
  }

  /** `verify-contract.py` accepts the environment. */
  predicate EnvVerified(d: Allowlist, text: string)
    requires d.Valid()
  {
    var actual := ParseLines(SplitLines(text));
    forall k :: k in d.values ==> k in actual && actual[k] == d.values[k]
  }

  /* ---------- which allowlists can converge ---------- */

  /** A key that survives being written and parsed back. */
  predicate CleanKey(k: string) {
    NoBreaks(k) && '=' !in k && Stripped(k) && !("#" <= k)
  }

  predicate Clean(d: Allowlist) {
    forall k :: k in d.values ==> CleanKey(k) && NoBreaks(d.values[k])
  }

  lemma KeyOfAssignment(d: Allowlist, k: string)
    requires k in d.values && CleanKey(k)
    ensures IsAssignment(Assignment(d, k)) && KeyOf(Assignment(d, k)) == k
    ensures ValueOf(Assignment(d, k)) == Strip(d.values[k])
  {
    var l := Assignment(d, k);
    assert l[|k|] == '=';
    assert k != "" ==> l[0] == k[0];
    assert LStrip(l) == l;
    StripFixed(k);
    BeforeFirst(k, '=', d.values[k]);
    assert l == k + ['='] + d.values[k];
    assert l[|k| + 1..] == d.values[k];
  }

  /** Skipping leading spaces does not depend on where the text is cut after a non-space. */
  lemma {:induction false} LStripPrefix(p: string, s: string)
    requires p <= s && LStrip(p) != ""
    ensures LStrip(s) != "" && LStrip(s)[0] == LStrip(p)[0]
  {
    if IsSpace(p[0]) {
      assert p[1..] <= s[1..];
      LStripPrefix(p[1..], s[1..]);
    }
  }

  lemma KeyOfIsClean(line: string)
    requires NoBreaks(line)
    ensures CleanKey(KeyOf(line))
  {
    if IsAssignment(line) {
      var p := Before(line, '=');
      var k := KeyOf(line);
      var at := StripIsSubstring(p);
      assert forall i :: 0 <= i < |k| ==> k[i] == p[at + i] == line[at + i];
      if k != "" {
        RStripPrefix(LStrip(p));
        LStripPrefix(p, line);
      }
    }
  }

  lemma {:induction false} AppendedMembers(d: Allowlist, ls: seq<string>, keys: seq<string>)
    requires forall k :: k in keys ==> k in d.values
    ensures forall l :: l in Appended(d, ls, keys) <==>
              exists k :: k in keys && !Seen(ls, k) && l == Assignment(d, k)
  {
    if keys != [] {
      AppendedMembers(d, ls, keys[1..]);
    }
  }

  lemma RenderedHasKey(d: Allowlist, text: string, k: string)
    requires d.Valid() && k in d.values
    ensures Assignment(d, k) in RenderedLines(d, text)
  {
    var ls := SplitLines(text);
    AppendedMembers(d, ls, d.keys);
    if Seen(ls, k) {
      var i :| 0 <= i < |ls| && KeyOf(ls[i]) == k;
      assert RenderedLines(d, text)[i] == Assignment(d, k);
    }
  }

  lemma AssignmentNoBreaks(d: Allowlist, k: string)
    requires Clean(d) && k in d.values
    ensures NoBreaks(Assignment(d, k))
  {
    assert NoBreaks("=");
  }

  lemma RenderedNoBreaks(d: Allowlist, text: string)
    requires d.Valid() && Clean(d)
    ensures forall i :: 0 <= i < |RenderedLines(d, text)| ==> NoBreaks(RenderedLines(d, text)[i])
  {
    var ls := SplitLines(text);
    LinesHaveNoBreaks("", text);
    forall i | 0 <= i < |ls| ensures NoBreaks(RewriteLine(d, ls[i])) {
      if KeyOf(ls[i]) in d.values {
        AssignmentNoBreaks(d, KeyOf(ls[i]));
      }
    }
    AppendedNoBreaks(d, ls, d.keys);
  }

  lemma {:induction false} AppendedNoBreaks(d: Allowlist, ls: seq<string>, keys: seq<string>)
    requires Clean(d) && forall k :: k in keys ==> k in d.values
    ensures forall i :: 0 <= i < |Appended(d, ls, keys)| ==> NoBreaks(Appended(d, ls, keys)[i])
  {
    if keys != [] {
      AssignmentNoBreaks(d, keys[0]);
      AppendedNoBreaks(d, ls, keys[1..]);
    }
  }

  lemma {:induction false} NothingAppended(d: Allowlist, ls: seq<string>, keys: seq<string>)
    requires forall k :: k in keys ==> k in d.values && Seen(ls, k)
    ensures Appended(d, ls, keys) == []
  {
    if keys != [] {
      NothingAppended(d, ls, keys[1..]);
    }
  }

  lemma RewriteFixed(d: Allowlist, text: string, i: int)
    requires d.Valid() && Clean(d) && 0 <= i < |RenderedLines(d, text)|
    ensures RewriteLine(d, RenderedLines(d, text)[i]) == RenderedLines(d, text)[i]
  {
    var ls := SplitLines(text);
    AppendedMembers(d, ls, d.keys);
    var l := RenderedLines(d, text)[i];
    if i < |ls| {
      if KeyOf(ls[i]) in d.values {
        KeyOfAssignment(d, KeyOf(ls[i]));
      }
    } else {
      assert l in Appended(d, ls, d.keys);
      var k :| k in d.keys && l == Assignment(d, k);
      KeyOfAssignment(d, k);
    }
  }

  /** With a clean allowlist, one rewrite converges: rendering the result again,
      as it is read back from disk, changes nothing. */
  lemma RenderConverges(d: Allowlist, text: string)
    requires d.Valid() && Clean(d)
    ensures ReadText(Rendered(d, text)) == Rendered(d, text)
    ensures Rendered(d, Rendered(d, text)) == Rendered(d, text)
  {
    var out := RenderedLines(d, text);
    RenderedNoBreaks(d, text);
    NoReturns(out);
    SplitJoin(out);
    forall k | k in d.keys ensures Seen(out, k) {
      RenderedHasKey(d, text, k);
      KeyOfAssignment(d, k);
    }
    NothingAppended(d, out, d.keys);
    forall i | 0 <= i < |out| ensures RewriteLine(d, out[i]) == out[i] {
      RewriteFixed(d, text, i);
    }
    assert RenderedLines(d, Rendered(d, text)) == out;
  }

  lemma {:induction false} JoinedBreaks(ls: seq<string>)
    ensures Breaks(JoinLines(ls)) >= |ls|
    ensures (exists i :: 0 <= i < |ls| && !NoBreaks(ls[i])) ==> Breaks(JoinLines(ls)) > |ls|
  {
    if ls != [] {
      JoinedBreaks(ls[1..]);
      BreaksConcat(ls[0] + "\n", JoinLines(ls[1..]));
      BreaksConcat(ls[0], "\n");
      BreaksPositive(ls[0]);
      assert Breaks("\n") == 1;
      if i :| 0 <= i < |ls| && !NoBreaks(ls[i]) {
        if i > 0 {
          assert !NoBreaks(ls[1..][i - 1]);
        }
      }
    }
  }

  lemma {:induction false} JoinLinesEnds(ls: seq<string>)
    requires ls != []
    ensures |JoinLines(ls)| > 0 && JoinLines(ls)[|JoinLines(ls)| - 1] == '\n'
  {
    if |ls| > 1 {
      JoinLinesEnds(ls[1..]);
    }
  }

  /** Reading back a rendered text gives at least as many lines as were rendered,
      and more if one of them holds a line break. */
  lemma RereadCount(ls: seq<string>)
    requires ls != [] && '\r' !in JoinLines(ls)
    ensures |SplitLines(JoinLines(ls))| >= |ls|
    ensures (exists i :: 0 <= i < |ls| && !NoBreaks(ls[i])) ==> |SplitLines(JoinLines(ls))| > |ls|
  {
    var text := JoinLines(ls);
    JoinLinesEnds(ls);
    var t := text[..|text| - 1];
    assert text == t + "\n";
    LineCount("", t);
    BreaksConcat(t, "\n");
    assert Breaks("\n") == 1;
    JoinedBreaks(ls);
  }

  lemma UncleanAssignment(d: Allowlist, k: string)
    requires k in d.values && CleanKey(k) && !NoBreaks(d.values[k])
    ensures !NoBreaks(Assignment(d, k))
  {
    var j :| 0 <= j < |d.values[k]| && IsBreak(d.values[k][j]);
    assert Assignment(d, k)[|k| + 1 + j] == d.values[k][j];
  }

  lemma UncleanKeyUnseen(text: string, k: string)
    requires !CleanKey(k)
    ensures !Seen(SplitLines(text), k)
  {
    var ls := SplitLines(text);
    LinesHaveNoBreaks("", text);
    forall i | 0 <= i < |ls| ensures KeyOf(ls[i]) != k {
      KeyOfIsClean(ls[i]);
    }
  }

  /** An allowlist that is not clean never converges: no file content at all is
      left unchanged by it, because every rewrite adds a line. */
  lemma UncleanNeverStable(d: Allowlist, text: string)
    requires d.Valid() && !Clean(d)
    requires '\r' !in text
    ensures Rendered(d, text) != text
  {
    var out, ls := RenderedLines(d, text), SplitLines(text);
    var k :| k in d.values && !(CleanKey(k) && NoBreaks(d.values[k]));
    RenderedHasKey(d, text, k);
    var at :| 0 <= at < |out| && out[at] == Assignment(d, k);
    if CleanKey(k) {
      UncleanAssignment(d, k);
      assert !NoBreaks(out[at]);
    } else {
      UncleanKeyUnseen(text, k);
      AppendedMembers(d, ls, d.keys);
      assert Assignment(d, k) in Appended(d, ls, d.keys);
      assert |out| > |ls|;
    }
    if '\r' !in JoinLines(out) {
      RereadCount(out);
    }
  }

  /** `--check` can pass on some `.env` exactly when the allowlist is clean. */
  lemma CheckablePrecisely(d: Allowlist)
    requires d.Valid()
    ensures (exists text :: '\r' !in text && Rendered(d, text) == text) <==> Clean(d)
  {
    if Clean(d) {
      RenderConverges(d, "");
      assert '\r' !in Rendered(d, "") by {
        assert ReadText(Rendered(d, "")) == Rendered(d, "");
      }
    } else {
      forall text | '\r' !in text ensures Rendered(d, text) != text {
        UncleanNeverStable(d, text);
      }
    }
  }

  /* ---------- what a rewrite leaves alone ---------- */

  /** Read back, the rewritten lines start with the old ones, and every line that assigns no
      allowlisted key is still there, at its place. */
  lemma OtherLinesKept(d: Allowlist, text: string, i: nat)
    requires d.Valid() && Clean(d) && i < |SplitLines(text)|
    ensures |SplitLines(text)| <= |SplitLines(Rendered(d, text))|
    ensures KeyOf(SplitLines(text)[i]) !in d.values ==>
              SplitLines(Rendered(d, text))[i] == SplitLines(text)[i]
  {
    RenderedNoBreaks(d, text);
    SplitJoin(RenderedLines(d, text));
  }

  /** Comments and blank lines have no key; they all stay exactly when no allowlisted key is empty. */
  lemma CommentsKeptPrecisely(d: Allowlist)
    requires d.Valid() && Clean(d)
    ensures (forall text, i: nat :: i < |SplitLines(text)| && !IsAssignment(SplitLines(text)[i]) ==>
               LineKept(d, text, i)) <==> "" !in d.values
  {
    if "" !in d.values {
      forall text, i: nat | i < |SplitLines(text)| && !IsAssignment(SplitLines(text)[i])
        ensures LineKept(d, text, i)
      {
        OtherLinesKept(d, text, i);
      }
    } else {
      CommentLost(d);
    }
  }

  ghost predicate LineKept(d: Allowlist, text: string, i: nat)
    requires d.Valid() && i < |SplitLines(text)|
  {
    i < |SplitLines(Rendered(d, text))| && SplitLines(Rendered(d, text))[i] == SplitLines(text)[i]
  }

  /** An empty key takes the place of a comment. */
  lemma CommentLost(d: Allowlist)
    requires d.Valid() && Clean(d) && "" in d.values
    ensures exists text, i: nat :: i < |SplitLines(text)| && !IsAssignment(SplitLines(text)[i]) && !LineKept(d, text, i)
  {
    var text := JoinLines(["#"]);
    assert NoBreaks("#");
    SplitJoin(["#"]);
    assert SplitLines(text)[0] == "#" && !IsAssignment("#");
    RenderedNoBreaks(d, text);
    SplitJoin(RenderedLines(d, text));
    assert RenderedLines(d, text)[0] == Assignment(d, "");
    assert Assignment(d, "")[0] == '=';
    assert !LineKept(d, text, 0);
  }

  lemma ParsedLast(ls: seq<string>, l: string, k: string)
    ensures k in ParseLines(ls + [l]) <==> k in ParseLines(ls) || (IsAssignment(l) && KeyOf(l) == k)
    ensures k in ParseLines(ls + [l]) ==>
              ParseLines(ls + [l])[k] == if IsAssignment(l) && KeyOf(l) == k then ValueOf(l) else ParseLines(ls)[k]
  {
    assert (ls + [l])[..|ls|] == ls;
  }

  lemma OtherKey(d: Allowlist, l: string, k: string)
    requires Clean(d) && k !in d.values
    ensures IsAssignment(RewriteLine(d, l)) && KeyOf(RewriteLine(d, l)) == k <==> IsAssignment(l) && KeyOf(l) == k
    ensures KeyOf(l) == k ==> RewriteLine(d, l) == l
  {
    if KeyOf(l) in d.values { KeyOfAssignment(d, KeyOf(l)); }
  }

  /** Rewriting allowlisted lines does not change what other keys are bound to. */
  lemma {:induction false} RewriteKeepsOthers(d: Allowlist, ls: seq<string>, k: string)
    requires d.Valid() && Clean(d) && k !in d.values
    ensures k in ParseLines(RewriteLines(d, ls)) <==> k in ParseLines(ls)
    ensures k in ParseLines(ls) ==> ParseLines(RewriteLines(d, ls))[k] == ParseLines(ls)[k]
  {
    if ls != [] {
      var init, l := ls[..|ls| - 1], ls[|ls| - 1];
      RewriteKeepsOthers(d, init, k);
      assert ls == init + [l];
      assert RewriteLines(d, ls) == RewriteLines(d, init) + [RewriteLine(d, l)];
      OtherKey(d, l, k);
      ParsedLast(init, l, k);
      ParsedLast(RewriteLines(d, init), RewriteLine(d, l), k);
    }
  }

  /** Neither do the lines appended. */
  lemma {:induction false} AppendKeepsOthers(d: Allowlist, ls: seq<string>, more: seq<string>, k: string)
    requires Clean(d) && k !in d.values
    requires forall l :: l in more ==> exists j :: j in d.values && l == Assignment(d, j)
    ensures k in ParseLines(ls + more) <==> k in ParseLines(ls)
    ensures k in ParseLines(ls) ==> ParseLines(ls + more)[k] == ParseLines(ls)[k]
  {
    if more == [] {
      assert ls + more == ls;
    } else {
      var init, l := more[..|more| - 1], more[|more| - 1];
      assert forall l :: l in init ==> l in more;
      AppendKeepsOthers(d, ls, init, k);
      assert ls + more == (ls + init) + [l];
      ParsedLast(ls + init, l, k);
      assert l in more;
      var j :| j in d.values && l == Assignment(d, j);
      KeyOfAssignment(d, j);
    }
  }

  lemma RenderedSplits(d: Allowlist, text: string)
    requires d.Valid() && Clean(d)
    ensures SplitLines(Rendered(d, text)) == RenderedLines(d, text)
  {
    RenderedNoBreaks(d, text);
    SplitJoin(RenderedLines(d, text));
  }

  lemma OthersReadBack(d: Allowlist, text: string, k: string)
    requires d.Valid() && Clean(d) && k !in d.values
    ensures k in ParseLines(SplitLines(Rendered(d, text))) <==> k in ParseLines(SplitLines(text))
    ensures k in ParseLines(SplitLines(text)) ==>
              ParseLines(SplitLines(Rendered(d, text)))[k] == ParseLines(SplitLines(text))[k]
  {
    var ls := SplitLines(text);
    RenderedSplits(d, text);
    AppendedMembers(d, ls, d.keys);
    RewriteKeepsOthers(d, ls, k);
    AppendKeepsOthers(d, RewriteLines(d, ls), Appended(d, ls, d.keys), k);
  }

  lemma KeysReadBack(d: Allowlist, text: string, k: string)
    requires d.Valid() && Clean(d) && k in d.values
    ensures k in ParseLines(SplitLines(Rendered(d, text)))
    ensures ParseLines(SplitLines(Rendered(d, text)))[k] == Strip(d.values[k])
  {
    RenderConverges(d, text);
    StableValue(d, Rendered(d, text), k);
  }

  function StrippedValues(d: Allowlist): map<string, string> {
    map k | k in d.values :: Strip(d.values[k])
  }

  /** The environment read back from the rewritten file: what it was before, with every allowlisted
      key bound to its stripped contract value. Nothing else is added, changed or lost. */
  lemma RenderedReadsBack(d: Allowlist, text: string)
    requires d.Valid() && Clean(d)
    ensures ParseLines(SplitLines(Rendered(d, text))) == ParseLines(SplitLines(text)) + StrippedValues(d)
  {
    forall k
      ensures k in d.values ==> k in ParseLines(SplitLines(Rendered(d, text)))
      ensures k in d.values ==> ParseLines(SplitLines(Rendered(d, text)))[k] == Strip(d.values[k])
    {
      if k in d.values { KeysReadBack(d, text, k); }
    }
    forall k | k !in d.values
      ensures k in ParseLines(SplitLines(Rendered(d, text))) <==> k in ParseLines(SplitLines(text))
      ensures k in ParseLines(SplitLines(text)) ==>
                ParseLines(SplitLines(Rendered(d, text)))[k] == ParseLines(SplitLines(text))[k]
    {
      OthersReadBack(d, text, k);
    }
    Overridden(ParseLines(SplitLines(Rendered(d, text))), ParseLines(SplitLines(text)), StrippedValues(d));
  }

  lemma Overridden(all: map<string, string>, before: map<string, string>, over: map<string, string>)
    requires forall k :: k in over ==> k in all && all[k] == over[k]
    requires forall k :: k !in over ==> (k in all <==> k in before) && (k in before ==> all[k] == before[k])
    ensures all == before + over
  {
  }

  /* ---------- a converged file as the verifier reads it ---------- */

  lemma ParsedLine(d: Allowlist, l: string, k: string)
    requires d.Valid() && Clean(d) && k in d.values
    requires RewriteLine(d, l) == l && KeyOf(l) == k
    ensures IsAssignment(l) && ValueOf(l) == Strip(d.values[k])
  {
    KeyOfAssignment(d, k);
  }

  lemma {:induction false} ParsedValue(d: Allowlist, ls: seq<string>, k: string)
    requires d.Valid() && Clean(d) && k in d.values
    requires RewriteLines(d, ls) == ls
    ensures k in ParseLines(ls) <==> Seen(ls, k)
    ensures k in ParseLines(ls) ==> ParseLines(ls)[k] == Strip(d.values[k])
  {
    if ls != [] {
      var init, l := ls[..|ls| - 1], ls[|ls| - 1];
      assert init + [l] == ls;
      FixedParts(d, init, l);
      ParsedValue(d, init, k);
      SeenLast(init, l, k);
      LastLine(d, init, l, k);
    }
  }

  lemma FixedParts(d: Allowlist, init: seq<string>, l: string)
    ensures RewriteLines(d, init + [l]) == init + [l] ==> RewriteLines(d, init) == init && RewriteLine(d, l) == l
    ensures (init + [l])[..|init|] == init
  {
    var ls := init + [l];
    if RewriteLines(d, ls) == ls {
      assert RewriteLines(d, init) == RewriteLines(d, ls)[..|init|];
      assert RewriteLine(d, l) == RewriteLines(d, ls)[|init|];
    }
  }

  /** What a last line adds. */
  lemma LastLine(d: Allowlist, init: seq<string>, l: string, k: string)
    requires d.Valid() && Clean(d) && k in d.values && RewriteLine(d, l) == l
    ensures k in ParseLines(init + [l]) <==> k in ParseLines(init) || KeyOf(l) == k
    ensures k in ParseLines(init + [l]) ==>
              ParseLines(init + [l])[k] == if KeyOf(l) == k then Strip(d.values[k]) else ParseLines(init)[k]
  {
    assert (init + [l])[..|init|] == init;
    if KeyOf(l) == k {
      ParsedLine(d, l, k);
    }
  }

  lemma StableLines(d: Allowlist, text: string)
    requires d.Valid() && Clean(d) && Rendered(d, text) == text
    ensures SplitLines(text) == RenderedLines(d, text)
  {
    RenderedNoBreaks(d, text);
    SplitJoin(RenderedLines(d, text));
  }

  lemma StableValue(d: Allowlist, text: string, k: string)
    requires d.Valid() && Clean(d) && Rendered(d, text) == text && k in d.values
    ensures k in ParseLines(SplitLines(text))
    ensures ParseLines(SplitLines(text))[k] == Strip(d.values[k])
  {
    var ls := SplitLines(text);
    StableLines(d, text);
    RenderedHasKey(d, text, k);
    KeyOfAssignment(d, k);
    assert Seen(ls, k);
    assert RewriteLines(d, ls) == RenderedLines(d, text)[..|ls|];
    ParsedValue(d, ls, k);
  }

  /** A file that `--check` accepts is read by the verifier with every allowlisted
      key present and bound to its stripped contract value, whatever duplicate and
      commented lines it holds. The verifier therefore agrees exactly when the
      contract's values carry no outer white space. */
  lemma CheckedEnvVerifies(d: Allowlist, text: string)
    requires d.Valid() && '\r' !in text && Rendered(d, text) == text
    ensures EnvVerified(d, text) <==> forall k :: k in d.values ==> Stripped(d.values[k])
  {
    if !Clean(d) {
      UncleanNeverStable(d, text);
    }
    forall k | k in d.values
      ensures k in ParseLines(SplitLines(text))
      ensures ParseLines(SplitLines(text))[k] == d.values[k] <==> Stripped(d.values[k])
    {
      StableValue(d, text, k);
      StripFixed(d.values[k]);
    }
  }

  /** A contract value with a trailing blank: the check passes, the verifier rejects. */
  lemma PaddedValueCounterexample()
    ensures var d := Allowlist(["A"], map["A" := "x "]);
            d.Valid() && Rendered(d, Rendered(d, "")) == Rendered(d, "")
            && !EnvVerified(d, Rendered(d, ""))
  {
    var d := Allowlist(["A"], map["A" := "x "]);
    assert Clean(d) by {
      assert NoBreaks("A") && '=' !in "A" && Stripped("A");
      assert "A"[0] != "#"[0];
      assert CleanKey("A") && NoBreaks("x ");
    }
    RenderConverges(d, "");
    var text := Rendered(d, "");
    assert '\r' !in text by {
      assert ReadText(text) == text;
    }
    CheckedEnvVerifies(d, text);
    StripFixed(d.values["A"]);
  }
}
