/** RPM package identities: `normalize` of `transaction.py`. */
module Nevra {
  import opened Options
  import opened Text

  /** The identity a package name denotes. */
  datatype Package = Package(name: string, epoch: nat, version: string, release: string, arch: string)

  predicate Digit(c: char) { '0' <= c <= '9' }
  predicate Hex(c: char) { Digit(c) || 'a' <= c <= 'f' }
  predicate NameChar(c: char) {
    'A' <= c <= 'Z' || 'a' <= c <= 'z' || Digit(c)
    || c == '+' || c == '_' || c == '.' || c == ':' || c == '~' || c == '^' || c == '%' || c == '-'
  }

  predicate Digits(s: string) { forall c :: c in s ==> Digit(c) }
  predicate Hexes(s: string) { forall c :: c in s ==> Hex(c) }
  predicate HexesOrColons(s: string) { forall c :: c in s ==> Hex(c) || c == ':' }
  predicate NameChars(s: string) { forall c :: c in s ==> NameChar(c) }

  /** Position of the last `c`, or -1. */
  function Last(s: string, c: char): (i: int)
    ensures -1 <= i < |s|
  {
    if s == "" then -1
    else if s[|s| - 1] == c then |s| - 1
    else Last(s[..|s| - 1], c)
  }

  lemma {:induction false} LastSpec(s: string, c: char)
    ensures Last(s, c) >= 0 ==> s[Last(s, c)] == c && c !in s[Last(s, c) + 1..]
  {
    if s != "" && s[|s| - 1] != c {
      var t, i := s[..|s| - 1], Last(s, c);
      LastSpec(t, c);
      if i >= 0 {
        assert s[i + 1..] == t[i + 1..] + [s[|s| - 1]];
      }
    }
  }

  lemma {:induction false} LastAt(a: string, c: char, b: string)
    requires c !in b
    ensures Last(a + [c] + b, c) == |a|
    decreases |b|
  {
    var s := a + [c] + b;
    if b != "" {
      assert s[..|s| - 1] == a + [c] + b[..|b| - 1];
      LastAt(a, c, b[..|b| - 1]);
    } else {
      assert s == a + [c];
    }
  }

  /** `s.rpartition(c)` with both sides required to be nonempty. */
  function Cut(s: string, c: char): Option<(string, string)> {
    var i := Last(s, c);
    if i <= 0 || i + 1 == |s| then None else Some((s[..i], s[i + 1..]))
  }

  lemma CutSpec(s: string, c: char)
    requires Cut(s, c).Some?
    ensures var (a, b) := Cut(s, c).value; s == a + [c] + b && a != "" && b != "" && c !in b
  {
    LastSpec(s, c);
  }

  lemma CutJoined(a: string, c: char, b: string)
    requires a != "" && b != "" && c !in b
    ensures Cut(a + [c] + b, c) == Some((a, b))
  {
    var s := a + [c] + b;
    LastAt(a, c, b);
    assert s[..|a|] == a && s[|a| + 1..] == b;
  }

  datatype Spelling = Spelling(name: string, version: string, release: string, arch: string)

  /** `rsplit('-', 2)` then `rpartition('.')`, all parts nonempty. */
  function Spelled(s: string): Option<Spelling> {
    match Cut(s, '-')
    case None => None
    case Some((front, tail)) =>
      match (Cut(front, '-'), Cut(tail, '.'))
      case (Some((name, version)), Some((release, arch))) => Some(Spelling(name, version, release, arch))
      case _ => None
  }

  function Spell(p: Spelling): string {
    (p.name + "-" + p.version) + "-" + (p.release + "." + p.arch)
  }

  predicate Separated(p: Spelling) {
    && p.name != "" && p.version != "" && p.release != "" && p.arch != ""
    && '-' !in p.version && '-' !in p.release && '-' !in p.arch && '.' !in p.arch
  }

  lemma SpelledSpec(s: string)
    requires Spelled(s).Some?
    ensures Separated(Spelled(s).value) && Spell(Spelled(s).value) == s
  {
    var (front, tail) := Cut(s, '-').value;
    CutSpec(s, '-');
    CutSpec(front, '-');
    CutSpec(tail, '.');
  }

  lemma SpelledSpell(p: Spelling)
    requires Separated(p)
    ensures Spelled(Spell(p)) == Some(p)
  {
    var front, tail := p.name + "-" + p.version, p.release + "." + p.arch;
    CutJoined(front, '-', tail);
    CutJoined(p.name, '-', p.version);
    CutJoined(p.release, '.', p.arch);
    assert front == p.name + ['-'] + p.version && tail == p.release + ['.'] + p.arch;
    assert Spell(p) == front + ['-'] + tail;
  }

  /** `gpg-pubkey-[a-f0-9:]+-[a-f0-9]+\.\(none\)`, by its parts. */
  predicate KeyForm(p: Spelling) {
    p.name == "gpg-pubkey" && HexesOrColons(p.version) && Hexes(p.release) && p.arch == "(none)"
  }

  /** The two accepted alphabets. */
  predicate Admissible(s: string) {
    NameChars(s) || (Spelled(s).Some? && KeyForm(Spelled(s).value))
  }

  function IntOf(s: string): nat
    requires Digits(s)
  {
    if s == "" then 0
    else
      assert Digit(s[|s| - 1]);
      10 * IntOf(s[..|s| - 1]) + (s[|s| - 1] as int - '0' as int)
  }

  lemma {:induction false} IntOfDec(n: nat)
    ensures IntOf(Decimal(n)) == n
  {
    if n >= 10 {
      IntOfDec(n / 10);
      assert Decimal(n)[..|Decimal(n)| - 1] == Decimal(n / 10);
    }
  }

  /** The epoch is everything before the first colon, zero when there is none. */
  function EpochOf(version: string): string {
    if ':' in version then Before(version, ':') else "0"
  }

  function ValueOf(version: string): string {
    if ':' in version then version[|Before(version, ':')| + 1..] else version
  }

  function Parse(s: string): Option<Package> {
    if !Admissible(s) || Spelled(s).None? then None
    else
      var p := Spelled(s).value;
      var epoch, value := EpochOf(p.version), ValueOf(p.version);
      if epoch == "" || !Digits(epoch) || value == "" || ':' in value then None
      else Some(Package(p.name, IntOf(epoch), value, p.release, p.arch))
  }

  function Canonical(p: Package): Spelling {
    Spelling(p.name, Decimal(p.epoch) + ":" + p.version, p.release, p.arch)
  }

  function Render(p: Package): string {
    Spell(Canonical(p))
  }

  /** `normalize`: the canonical spelling, or nothing when the name is refused. */
  function Normalize(s: string): Option<string> {
    match Parse(s) case None => None case Some(p) => Some(Render(p))
  }

  lemma ValueOfSubset(version: string)
    ensures forall c :: c in ValueOf(version) ==> c in version
  {
  }

  lemma CanonicalVersion(epoch: nat, value: string)
    requires ':' !in value
    ensures var v := Decimal(epoch) + ":" + value; EpochOf(v) == Decimal(epoch) && ValueOf(v) == value
  {
    var v := Decimal(epoch) + ":" + value;
    assert ':' !in Decimal(epoch) by { assert Digits(Decimal(epoch)); }
    assert v == Decimal(epoch) + [':'] + value && v[|Decimal(epoch)|] == ':';
    BeforeFirst(Decimal(epoch), ':', value);
    assert v[|Decimal(epoch)| + 1..] == value;
  }

  lemma CanonicalSeparated(s: string)
    requires Parse(s).Some?
    ensures Separated(Canonical(Parse(s).value))
    ensures Spelled(Render(Parse(s).value)) == Some(Canonical(Parse(s).value))
  {
    SpelledSpec(s);
    var p := Parse(s).value;
    ValueOfSubset(Spelled(s).value.version);
    assert '-' !in Decimal(p.epoch) by { assert Digits(Decimal(p.epoch)); }
    SpelledSpell(Canonical(p));
  }

  lemma CanonicalAdmissible(s: string)
    requires Parse(s).Some?
    ensures Admissible(Render(Parse(s).value))
  {
    SpelledSpec(s);
    CanonicalSeparated(s);
    var q, p := Spelled(s).value, Parse(s).value;
    ValueOfSubset(q.version);
    var e := Decimal(p.epoch);
    assert Digits(e);
    if NameChars(s) {
      assert forall c :: c in q.name || c in q.version || c in q.release || c in q.arch ==> c in s;
      assert NameChars(Render(p));
    } else {
      assert HexesOrColons(e + ":" + p.version);
    }
  }

  /** Every accepted spelling denotes the package its canonical spelling denotes. */
  lemma NormalizeDenotes(s: string)
    requires Parse(s).Some?
    ensures Parse(Normalize(s).value) == Parse(s)
  {
    var p := Parse(s).value;
    CanonicalAdmissible(s);
    CanonicalSeparated(s);
    CanonicalVersion(p.epoch, p.version);
    IntOfDec(p.epoch);
  }

  lemma NormalizeIdempotent(s: string)
    requires Normalize(s).Some?
    ensures Normalize(Normalize(s).value) == Normalize(s)
  {
    NormalizeDenotes(s);
  }

  /** Two names normalize alike exactly when they denote the same
      (name, epoch, version, release, arch). */
  lemma NormalizeIdentifies(a: string, b: string)
    requires Normalize(a).Some? && Normalize(b).Some?
    ensures Normalize(a) == Normalize(b) <==> Parse(a) == Parse(b)
  {
    NormalizeDenotes(a);
    NormalizeDenotes(b);
  }

  /* ---------- which names are accepted ---------- */

  /** A package name as the tools list it; `version` may carry an epoch. */
  predicate Listable(p: Spelling) {
    Separated(p) && (NameChars(Spell(p)) || KeyForm(p))
  }

  lemma NoEpoch()
    ensures Digits("") && Digits("0") && IntOf("") == IntOf("0") == 0
  {
    assert IntOf("0"[..0]) == 0;
  }

  lemma VersionOf(epoch: string, value: string)
    requires ':' !in value && Digits(epoch)
    ensures var version := if epoch == "" then value else epoch + ":" + value;
      ValueOf(version) == value && EpochOf(version) == if epoch == "" then "0" else epoch
  {
    if epoch != "" {
      var version := epoch + ":" + value;
      assert ':' !in epoch by { assert forall c :: c in epoch ==> Digit(c); }
      assert version == epoch + [':'] + value && version[|epoch|] == ':';
      BeforeFirst(epoch, ':', value);
      assert version[|epoch| + 1..] == value;
    }
  }

  lemma VersionSplits(version: string)
    ensures ':' in version ==> version == EpochOf(version) + ":" + ValueOf(version)
    ensures ':' !in version ==> version == ValueOf(version) && EpochOf(version) == "0"
  {
  }

  /** Every listable name is accepted and denotes what it says: with an epoch, leading zeros or not, and
      without one, which is epoch zero. */
  lemma Accepts(p: Spelling, epoch: string, value: string)
    requires Listable(p) && value != "" && ':' !in value && Digits(epoch)
    requires p.version == (if epoch == "" then value else epoch + ":" + value)
    ensures Parse(Spell(p)) == Some(Package(p.name, IntOf(epoch), value, p.release, p.arch))
  {
    SpelledSpell(p);
    VersionOf(epoch, value);
    NoEpoch();
  }

  /** And nothing else is: an accepted name is a listable one, with one epoch of digits at most. */
  lemma AcceptsOnly(s: string) returns (p: Spelling, epoch: string)
    requires Parse(s).Some?
    ensures Listable(p) && s == Spell(p) && Digits(epoch)
    ensures Parse(s).value.version != "" && ':' !in Parse(s).value.version
    ensures p.version == if epoch == "" then Parse(s).value.version else epoch + ":" + Parse(s).value.version
    ensures Parse(s).value == Package(p.name, IntOf(epoch), Parse(s).value.version, p.release, p.arch)
  {
    SpelledSpec(s);
    NoEpoch();
    p := Spelled(s).value;
    VersionSplits(p.version);
    epoch := if ':' in p.version then EpochOf(p.version) else "";
  }

  predicate AboveNewline(s: string) {
    forall c :: c in s ==> c > '\n' && !IsBreak(c)
  }

  /** Canonical names hold no line break and only characters that sort above a newline. */
  lemma NormalizedChars(s: string)
    requires Normalize(s).Some?
    ensures AboveNewline(Normalize(s).value)
  {
    CanonicalAdmissible(s);
    CanonicalSeparated(s);
    var q := Canonical(Parse(s).value);
    if !NameChars(Spell(q)) {
      KeyFormAbove(q);
    } else {
      NameCharsAbove(Spell(q));
    }
  }

  lemma NameCharsAbove(s: string)
    requires NameChars(s)
    ensures AboveNewline(s)
  {
    forall c | c in s ensures c > '\n' && !IsBreak(c) {
      assert NameChar(c);
    }
  }

  lemma KeyFormAbove(p: Spelling)
    requires KeyForm(p)
    ensures AboveNewline(Spell(p))
  {
    NameCharsAbove(p.name);
    NameCharsAbove("-");
    NameCharsAbove(".");
    forall c | c in p.version ensures NameChar(c) { assert Hex(c) || c == ':'; }
    forall c | c in p.release ensures NameChar(c) { assert Hex(c); }
    NameCharsAbove(p.version);
    NameCharsAbove(p.release);
    assert AboveNewline(p.arch);
  }
}
