/** Python text primitives the programs rely on: `str.splitlines`, `str.strip`,
    `str.split` with one separator, and text-mode newline translation. */
module Text {

  /** The line boundaries recognised by `str.splitlines`. */
  predicate IsBreak(c: char) {
    '\U{0A}' <= c <= '\U{0D}' || '\U{1C}' <= c <= '\U{1E}'
    || c == '\U{85}' || c == '\U{2028}' || c == '\U{2029}'
  }

  /** The characters removed by `str.strip()`. */
  predicate IsSpace(c: char) {
    IsBreak(c) || c == '\t' || c == '\U{1F}' || c == ' ' || c == '\U{A0}' || c == '\U{1680}'
    || '\U{2000}' <= c <= '\U{200A}' || c == '\U{202F}' || c == '\U{205F}' || c == '\U{3000}'
  }

  predicate NoBreaks(s: string) {
    forall i :: 0 <= i < |s| ==> !IsBreak(s[i])
  }

  /** `(cur + s).splitlines()`, where `cur` is the unfinished current line. */
  function LinesFrom(cur: string, s: string): seq<string>
    decreases |s|
  {
    if s == "" then (if cur == "" then [] else [cur])
    else if !IsBreak(s[0]) then LinesFrom(cur + [s[0]], s[1..])
    else if s[0] == '\r' && |s| > 1 && s[1] == '\n' then [cur] + LinesFrom("", s[2..])
    else [cur] + LinesFrom("", s[1..])
  }

  function SplitLines(s: string): seq<string> {
    LinesFrom("", s)
  }

  /** Every line followed by a newline: `"\n".join(lines) + "\n"` for a nonempty list. */
  function JoinLines(ls: seq<string>): string {
    if ls == [] then "" else ls[0] + "\n" + JoinLines(ls[1..])
  }

  lemma {:induction false} JoinLinesConcat(a: seq<string>, b: seq<string>)
    ensures JoinLines(a + b) == JoinLines(a) + JoinLines(b)
  {
    if a == [] {
      assert a + b == b;
    } else {
      assert (a + b)[1..] == a[1..] + b;
      JoinLinesConcat(a[1..], b);
    }
  }

  lemma {:induction false} LinesAfterLine(cur: string, l: string, rest: string)
    requires NoBreaks(l)
    ensures LinesFrom(cur, l + "\n" + rest) == [cur + l] + LinesFrom("", rest)
    decreases |l|
  {
    var s := l + "\n" + rest;
    if l == "" {
      assert s[0] == '\n' && s[1..] == rest;
      assert cur + l == cur;
    } else {
      assert s[0] == l[0] && s[1..] == l[1..] + "\n" + rest;
      LinesAfterLine(cur + [l[0]], l[1..], rest);
      assert cur + [l[0]] + l[1..] == cur + l;
    }
  }

  /** Splitting joined lines gives the lines back. */
  lemma {:induction false} SplitJoin(ls: seq<string>)
    requires forall i :: 0 <= i < |ls| ==> NoBreaks(ls[i])
    ensures SplitLines(JoinLines(ls)) == ls
  {
    if ls != [] {
      LinesAfterLine("", ls[0], JoinLines(ls[1..]));
      SplitJoin(ls[1..]);
      assert "" + ls[0] == ls[0];
    }
  }

  lemma {:induction false} LinesHaveNoBreaks(cur: string, s: string)
    requires NoBreaks(cur)
    ensures forall i :: 0 <= i < |LinesFrom(cur, s)| ==> NoBreaks(LinesFrom(cur, s)[i])
    decreases |s|
  {
    if s != "" {
      if !IsBreak(s[0]) {
        LinesHaveNoBreaks(cur + [s[0]], s[1..]);
      } else if s[0] == '\r' && |s| > 1 && s[1] == '\n' {
        LinesHaveNoBreaks("", s[2..]);
      } else {
        LinesHaveNoBreaks("", s[1..]);
      }
    }
  }

  function Breaks(s: string): nat {
    if s == "" then 0 else (if IsBreak(s[0]) then 1 else 0) + Breaks(s[1..])
  }

  lemma {:induction false} BreaksConcat(a: string, b: string)
    ensures Breaks(a + b) == Breaks(a) + Breaks(b)
  {
    if a == "" {
      assert a + b == b;
    } else {
      assert (a + b)[1..] == a[1..] + b;
      BreaksConcat(a[1..], b);
    }
  }

  lemma {:induction false} BreaksPositive(s: string)
    ensures Breaks(s) == 0 <==> NoBreaks(s)
  {
    if s != "" {
      BreaksPositive(s[1..]);
      assert s == [s[0]] + s[1..];
      assert NoBreaks(s) <==> !IsBreak(s[0]) && NoBreaks(s[1..]);
    }
  }

  /** Without carriage returns, a newline-terminated text has one line per break. */
  lemma {:induction false} LineCount(cur: string, t: string)
    requires '\r' !in t
    ensures |LinesFrom(cur, t + "\n")| == Breaks(t) + 1
    decreases |t|
  {
    var s := t + "\n";
    if t == "" {
      assert s[1..] == "";
    } else {
      assert s[0] == t[0] && s[1..] == t[1..] + "\n";
      LineCount(if IsBreak(t[0]) then "" else cur + [t[0]], t[1..]);
    }
  }

  /** Text-mode reading: `\r\n` and `\r` both become `\n`. */
  function ReadText(s: string): (r: string)
    ensures '\r' !in r
    ensures '\r' !in s ==> r == s
    decreases |s|
  {
    if s == "" then ""
    else if s[0] == '\r' then
      ['\n'] + ReadText(if |s| > 1 && s[1] == '\n' then s[2..] else s[1..])
    else [s[0]] + ReadText(s[1..])
  }

  function LStrip(s: string): string {
    if s != "" && IsSpace(s[0]) then LStrip(s[1..]) else s
  }

  function RStrip(s: string): string {
    if s != "" && IsSpace(s[|s| - 1]) then RStrip(s[..|s| - 1]) else s
  }

  function Strip(s: string): string {
    RStrip(LStrip(s))
  }

  /** Neither end of the text is white space. */
  predicate Stripped(s: string) {
    s == "" || (!IsSpace(s[0]) && !IsSpace(s[|s| - 1]))
  }

  lemma {:induction false} LStripSuffix(s: string)
    ensures LStrip(s) == "" || !IsSpace(LStrip(s)[0])
    ensures |LStrip(s)| <= |s| && LStrip(s) == s[|s| - |LStrip(s)|..]
  {
    if s != "" && IsSpace(s[0]) {
      LStripSuffix(s[1..]);
    }
  }

  lemma {:induction false} RStripPrefix(s: string)
    ensures RStrip(s) == "" || !IsSpace(RStrip(s)[|RStrip(s)| - 1])
    ensures RStrip(s) <= s
  {
    if s != "" && IsSpace(s[|s| - 1]) {
      RStripPrefix(s[..|s| - 1]);
    }
  }

  /** Stripping yields a stripped substring, and stripped texts are its fixed points. */
  lemma StripIsSubstring(s: string) returns (i: nat)
    ensures Stripped(Strip(s))
    ensures i + |Strip(s)| <= |s| && Strip(s) == s[i..i + |Strip(s)|]
  {
    var l := LStrip(s);
    LStripSuffix(s);
    RStripPrefix(l);
    i := |s| - |l|;
    var r := Strip(s);
    assert r == l[..|r|];
  }

  lemma StripFixed(s: string)
    ensures Strip(s) == s <==> Stripped(s)
  {
    if Strip(s) == s {
      var _ := StripIsSubstring(s);
    }
  }

  /** `s.split(c, 1)[0]`: everything before the first `c`, or all of `s`. */
  function Before(s: string, c: char): (r: string)
    ensures c !in r && r <= s
    ensures c in s ==> |r| < |s| && s[|r|] == c
    ensures c !in s ==> r == s
  {
    if s == "" || s[0] == c then "" else [s[0]] + Before(s[1..], c)
  }

  lemma {:induction false} BeforeFirst(a: string, c: char, b: string)
    requires c !in a
    ensures Before(a + [c] + b, c) == a
  {
    var s := a + [c] + b;
    if a == "" {
      assert s[0] == c;
    } else {
      assert s[0] == a[0] && s[1..] == a[1..] + [c] + b;
      BeforeFirst(a[1..], c, b);
    }
  }

  /** `s.split(c)`: never empty. */
  function Split(s: string, c: char): (r: seq<string>)
    ensures |r| > 0
    decreases |s|
  {
    var h := Before(s, c);
    if c in s then [h] + Split(s[|h| + 1..], c) else [h]
  }

  /** No part holds the separator, and every character of a part is one of the text. */
  lemma {:induction false} SplitParts(s: string, c: char)
    ensures forall p :: p in Split(s, c) ==> c !in p && forall x :: x in p ==> x in s
    decreases |s|
  {
    var h := Before(s, c);
    if c in s { SplitParts(s[|h| + 1..], c); }
  }

  lemma SplitTwo(a: string, c: char, b: string)
    requires c !in a && c !in b
    ensures Split(a + [c] + b, c) == [a, b]
  {
    var s := a + [c] + b;
    BeforeFirst(a, c, b);
    assert s[|a|] == c && s[|a| + 1..] == b;
    assert Split(b, c) == [b];
  }

  /** `str(n)`. */
  function Decimal(n: nat): (s: string)
    ensures s != "" && forall c :: c in s ==> '0' <= c <= '9'
  {
    if n < 10 then [('0' as int + n) as char] else Decimal(n / 10) + [('0' as int + n % 10) as char]
  }

  lemma {:induction false} NoReturns(ls: seq<string>)
    requires forall i :: 0 <= i < |ls| ==> NoBreaks(ls[i])
    ensures '\r' !in JoinLines(ls)
  {
    if ls != [] {
      NoReturns(ls[1..]);
      assert forall c :: c in ls[0] ==> !IsBreak(c);
    }
  }
}
