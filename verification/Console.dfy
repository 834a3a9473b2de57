/** The prompt gate of `hermes-luks-console.py`: a streaming automaton over a bounded,
    escape-stripped buffer. Every buffered byte carries its position in the raw
    console stream, so evidence can be located in that stream. */
module Console {
  import opened Options

  const LIMIT := 4096
  const ESC: Byte := 0x1B
  const BRACKET: Byte := 0x5B

  type Byte = b: int | 0 <= b < 256
  datatype Tagged = Tagged(byte: Byte, pos: nat)
  datatype Span = Span(start: nat, end: nat)

  /* ---------- control sequences (section 5.4 of ECMA-48) ---------- */

  /** Length of the leading run of bytes between `lo` and `hi`. */
  function Leading(s: seq<Tagged>, lo: int, hi: int): (n: nat)
    ensures n <= |s|
  {
    if s != [] && lo <= s[0].byte <= hi then 1 + Leading(s[1..], lo, hi) else 0
  }

  /** Length of the control sequence that starts `s`, or zero: the introducer, parameter
      bytes 30-3F, intermediate bytes 20-2F, one final byte 40-7E. */
  function ControlLength(s: seq<Tagged>): (n: nat)
    ensures n <= |s|
  {
    if |s| < 2 || s[0].byte != ESC || s[1].byte != BRACKET then 0
    else
      var p := Leading(s[2..], 0x30, 0x3F);
      var q := Leading(s[2 + p..], 0x20, 0x2F);
      var f := 2 + p + q;
      if f < |s| && 0x40 <= s[f].byte <= 0x7E then f + 1 else 0
  }

  /** `normalized_console_output`: every control sequence removed, left to right. */
  function Normalize(s: seq<Tagged>): seq<Tagged>
    decreases |s|
  {
    if s == [] then []
    else if ControlLength(s) > 0 then Normalize(s[ControlLength(s)..])
    else [s[0]] + Normalize(s[1..])
  }

  lemma {:induction false} PlainKept(s: seq<Tagged>, rest: seq<Tagged>)
    requires forall i :: 0 <= i < |s| ==> s[i].byte != ESC
    ensures Normalize(s + rest) == s + Normalize(rest)
  {
    if s == [] {
      assert s + rest == rest;
    } else {
      assert (s + rest)[0] == s[0] && (s + rest)[1..] == s[1..] + rest;
      PlainKept(s[1..], rest);
      assert ControlLength(s + rest) == 0;
    }
  }

  lemma {:induction false} LeadingConcat(a: seq<Tagged>, b: seq<Tagged>, lo: int, hi: int)
    requires forall i :: 0 <= i < |a| ==> lo <= a[i].byte <= hi
    requires b != [] ==> !(lo <= b[0].byte <= hi)
    ensures Leading(a + b, lo, hi) == |a|
  {
    if a == [] {
      assert a + b == b;
    } else {
      assert (a + b)[1..] == a[1..] + b;
      LeadingConcat(a[1..], b, lo, hi);
    }
  }

  lemma ControlLengthOf(intro: seq<Tagged>, params: seq<Tagged>, inter: seq<Tagged>, tail: seq<Tagged>)
    requires |intro| == 2 && intro[0].byte == ESC && intro[1].byte == BRACKET
    requires forall i :: 0 <= i < |params| ==> 0x30 <= params[i].byte <= 0x3F
    requires forall i :: 0 <= i < |inter| ==> 0x20 <= inter[i].byte <= 0x2F
    requires tail != [] && 0x40 <= tail[0].byte <= 0x7E
    ensures ControlLength(intro + (params + (inter + tail))) == 3 + |params| + |inter|
  {
    var c := intro + (params + (inter + tail));
    assert c[0] == intro[0] && c[1] == intro[1] && c[2..] == params + (inter + tail);
    LeadingConcat(params, inter + tail, 0x30, 0x3F);
    assert c[2 + |params|..] == inter + tail;
    LeadingConcat(inter, tail, 0x20, 0x2F);
    assert c[2 + |params| + |inter|] == tail[0];
  }

  /** A complete control sequence between plain text and anything else disappears,
      and nothing else does. */
  lemma ControlSequenceStripped(plain: seq<Tagged>, intro: seq<Tagged>, params: seq<Tagged>,
                                inter: seq<Tagged>, tail: seq<Tagged>)
    requires forall i :: 0 <= i < |plain| ==> plain[i].byte != ESC
    requires |intro| == 2 && intro[0].byte == ESC && intro[1].byte == BRACKET
    requires forall i :: 0 <= i < |params| ==> 0x30 <= params[i].byte <= 0x3F
    requires forall i :: 0 <= i < |inter| ==> 0x20 <= inter[i].byte <= 0x2F
    requires tail != [] && 0x40 <= tail[0].byte <= 0x7E
    ensures Normalize(plain + (intro + (params + (inter + tail)))) == plain + Normalize(tail[1..])
  {
    var c := intro + (params + (inter + tail));
    PlainKept(plain, c);
    ControlLengthOf(intro, params, inter, tail);
    StripHead(c, 3 + |params| + |inter|);
    AfterFinal(intro, params, inter, tail);
  }

  lemma StripHead(c: seq<Tagged>, k: nat)
    requires 0 < k <= |c| && ControlLength(c) == k
    ensures Normalize(c) == Normalize(c[k..])
  {
  }

  lemma AfterFinal(intro: seq<Tagged>, params: seq<Tagged>, inter: seq<Tagged>, tail: seq<Tagged>)
    requires |intro| == 2 && tail != []
    ensures (intro + (params + (inter + tail)))[3 + |params| + |inter|..] == tail[1..]
  {
  }

  /* ---------- positions ---------- */

  ghost predicate Rising(s: seq<Tagged>) {
    forall i, j :: 0 <= i < j < |s| ==> s[i].pos < s[j].pos
  }

  /** All of `a` lies before all of `b` in the stream. */
  ghost predicate Before(a: seq<Tagged>, b: seq<Tagged>) {
    forall i, j :: 0 <= i < |a| && 0 <= j < |b| ==> a[i].pos < b[j].pos
  }

  /** Every tag names the stream position its byte came from. */
  ghost predicate Faithful(stream: seq<Byte>, s: seq<Tagged>) {
    forall i :: 0 <= i < |s| ==> s[i].pos < |stream| && stream[s[i].pos] == s[i].byte
  }

  ghost predicate Within(a: seq<Tagged>, b: seq<Tagged>) {
    forall t :: t in a ==> t in b
  }

  /** `n` keeps some of `s`, in order. */
  ghost predicate Selects(n: seq<Tagged>, s: seq<Tagged>) {
    |n| <= |s| && Within(n, s) && (Rising(s) ==> Rising(n))
  }

  lemma SelectFromTail(n: seq<Tagged>, s: seq<Tagged>, k: nat)
    requires k <= |s| && Selects(n, s[k..])
    ensures Selects(n, s)
  {
  }

  lemma SelectWithHead(n: seq<Tagged>, s: seq<Tagged>)
    requires s != [] && Selects(n, s[1..])
    ensures Selects([s[0]] + n, s)
  {
    if Rising(s) {
      forall i | 0 <= i < |n| ensures s[0].pos < n[i].pos {
        assert n[i] in s[1..];
        var j :| 0 <= j < |s[1..]| && s[1..][j] == n[i];
        assert s[1 + j] == n[i];
      }
    }
  }

  lemma {:induction false} NormalizeSelects(s: seq<Tagged>)
    ensures Selects(Normalize(s), s)
    decreases |s|
  {
    if s != [] {
      var k := ControlLength(s);
      if k > 0 {
        NormalizeSelects(s[k..]);
        SelectFromTail(Normalize(s[k..]), s, k);
      } else {
        NormalizeSelects(s[1..]);
        SelectWithHead(Normalize(s[1..]), s);
      }
    }
  }

  lemma WithinBefore(a: seq<Tagged>, big: seq<Tagged>, small: seq<Tagged>)
    requires Before(a, big) && Within(small, big)
    ensures Before(a, small)
  {
    forall i, j | 0 <= i < |a| && 0 <= j < |small| ensures a[i].pos < small[j].pos {
      assert small[j] in big;
    }
  }

  lemma WithinFaithful(stream: seq<Byte>, big: seq<Tagged>, small: seq<Tagged>)
    requires Faithful(stream, big) && Within(small, big)
    ensures Faithful(stream, small)
  {
    forall i | 0 <= i < |small| ensures small[i].pos < |stream| && stream[small[i].pos] == small[i].byte {
      assert small[i] in big;
    }
  }

  /* ---------- markers ---------- */

  type Search = seq<Byte> -> Option<Span>

  /** The three regular expressions, each as "the latest match in this text". */
  datatype Markers = Markers(reboot: Search, boundary: Search, prompt: Search) {
    ghost predicate Sound() {
      ProperSearch(reboot) && ProperSearch(boundary) && ProperSearch(prompt)
    }
  }

  ghost predicate ProperSearch(search: Search) {
    forall s :: Proper(search(s), |s|)
  }

  /** A match is a nonempty stretch of the text. */
  predicate Proper(m: Option<Span>, size: nat) {
    m.Some? ==> m.value.start < m.value.end <= size
  }

  function Bytes(s: seq<Tagged>): (r: seq<Byte>)
    ensures |r| == |s|
  {
    seq(|s|, i requires 0 <= i < |s| => s[i].byte)
  }

  /* ---------- the gate ---------- */

  /** A matched marker, with the normalized buffer and the span it was found in. */
  datatype Evidence = Evidence(marker: seq<Tagged>, window: seq<Tagged>, span: Span)

  function Found(n: seq<Tagged>, span: Span): Evidence
    requires span.start <= span.end <= |n|
  {
    Evidence(n[span.start..span.end], n, span)
  }

  const NOTHING := Evidence([], [], Span(0, 0))

  /** What one submission consumed; the first two are `NOTHING` in one-shot mode. */
  datatype Submission = Submission(reboot: Evidence, boundary: Evidence, prompt: Evidence)

  datatype Gate = Gate(stream: seq<Byte>, buffer: seq<Tagged>, armed: bool, rebootSeen: bool,
                       reboot: Evidence, boundary: Evidence, submissions: seq<Submission>)

  function Truncated(s: seq<Tagged>): seq<Tagged> {
    if |s| <= LIMIT then s else s[|s| - LIMIT..]
  }

  function Tag(chunk: seq<Byte>, base: nat): (r: seq<Tagged>)
    ensures |r| == |chunk|
  {
    seq(|chunk|, i requires 0 <= i < |chunk| => Tagged(chunk[i], base + i))
  }

  /** `console_output = (console_output + chunk)[-4096:]` */
  function Append(g: Gate, chunk: seq<Byte>): Gate {
    g.(stream := g.stream + chunk, buffer := Truncated(g.buffer + Tag(chunk, |g.stream|)))
  }

  /** What follows a marker in the normalized text. */
  function Rest(ev: Evidence): seq<Tagged> {
    if ev.span.end <= |ev.window| then ev.window[ev.span.end..] else []
  }

  function SeeReboot(g: Gate, ev: Option<Evidence>): Gate {
    match ev
    case None => g
    case Some(e) => g.(rebootSeen := true, reboot := e, buffer := Rest(e))
  }

  function SeeBoundary(g: Gate, ev: Option<Evidence>): Gate {
    match ev
    case None => g
    case Some(e) => g.(armed := true, rebootSeen := false, boundary := e, buffer := Rest(e))
  }

  function SeePrompt(g: Gate, ev: Option<Evidence>): Gate {
    match ev
    case None => g
    case Some(e) =>
      g.(armed := false, buffer := [], submissions := g.submissions + [Submission(g.reboot, g.boundary, e)])
  }

  /** `latest_reboot_marker` and the others: normalize the buffer, then search. */
  function Look(search: Search, buffer: seq<Tagged>): Option<Evidence>
    requires ProperSearch(search)
  {
    var n := Normalize(buffer);
    match search(Bytes(n))
    case None => None
    case Some(span) =>
      assert Proper(search(Bytes(n)), |Bytes(n)|);
      Some(Found(n, span))
  }

  type Eye = seq<Tagged> -> Option<Evidence>

  datatype Eyes = Eyes(reboot: Eye, boundary: Eye, prompt: Eye)

  function EyesOf(m: Markers): Eyes
    requires m.Sound()
  {
    Eyes(b => Look(m.reboot, b), b => Look(m.boundary, b), b => Look(m.prompt, b))
  }

  /** The regular expression found this marker, and its bytes are in the stream. */
  ghost predicate Genuine(stream: seq<Byte>, search: Search, e: Evidence) {
    && search(Bytes(e.window)) == Some(e.span)
    && e.span.start < e.span.end <= |e.window| && e.marker == e.window[e.span.start..e.span.end]
    && Rising(e.window) && Faithful(stream, e.window)
    && Rising(e.marker) && Faithful(stream, e.marker)
  }

  /** A submission of the persistent watcher: a reboot marker, then a boot boundary, then
      a prompt, each at later stream positions than the one before. */
  ghost predicate Owned(stream: seq<Byte>, m: Markers, s: Submission) {
    && Genuine(stream, m.reboot, s.reboot) && Genuine(stream, m.boundary, s.boundary)
    && Genuine(stream, m.prompt, s.prompt)
    && Before(s.reboot.marker, s.boundary.marker) && Before(s.boundary.marker, s.prompt.marker)
  }

  ghost predicate WatchHistory(stream: seq<Byte>, m: Markers, subs: seq<Submission>) {
    && (forall i :: 0 <= i < |subs| ==> Owned(stream, m, subs[i]))
    && (forall i :: 0 < i < |subs| ==> Before(subs[i - 1].prompt.marker, subs[i].reboot.marker))
  }

  ghost predicate AfterLast(g: Gate, s: seq<Tagged>) {
    g.submissions != [] ==> Before(g.submissions[|g.submissions| - 1].prompt.marker, s)
  }

  ghost predicate RebootHeld(g: Gate, m: Markers) {
    && Genuine(g.stream, m.reboot, g.reboot)
    && AfterLast(g, g.reboot.marker) && Before(g.reboot.marker, g.buffer)
  }

  ghost predicate BoundaryHeld(g: Gate, m: Markers) {
    && RebootHeld(g, m) && Genuine(g.stream, m.boundary, g.boundary)
    && Before(g.reboot.marker, g.boundary.marker) && Before(g.boundary.marker, g.buffer)
  }

  ghost predicate Inv(g: Gate, m: Markers, watch: bool) {
    && |g.buffer| <= LIMIT && Rising(g.buffer) && Faithful(g.stream, g.buffer)
    && (watch ==>
          && WatchHistory(g.stream, m, g.submissions) && AfterLast(g, g.buffer)
          && !(g.armed && g.rebootSeen)
          && (g.rebootSeen ==> RebootHeld(g, m))
          && (g.armed ==> BoundaryHeld(g, m)))
    && (!watch ==> !g.rebootSeen && (g.armed <==> g.submissions == []) && |g.submissions| <= 1)
  }

  lemma AppendKeepsBefore(a: seq<Tagged>, g: Gate, chunk: seq<Byte>)
    requires Before(a, g.buffer) && Faithful(g.stream, a)
    ensures Before(a, Append(g, chunk).buffer) && Faithful(g.stream + chunk, a)
  {
  }

  lemma AppendOwned(stream: seq<Byte>, m: Markers, chunk: seq<Byte>, s: Submission)
    requires Owned(stream, m, s)
    ensures Owned(stream + chunk, m, s)
  {
  }

  lemma AppendBuffer(g: Gate, chunk: seq<Byte>)
    requires Rising(g.buffer) && Faithful(g.stream, g.buffer)
    ensures var h := Append(g, chunk); |h.buffer| <= LIMIT && Rising(h.buffer) && Faithful(h.stream, h.buffer)
  {
    var all := g.buffer + Tag(chunk, |g.stream|);
    assert Faithful(g.stream + chunk, all);
    assert Rising(all);
  }

  lemma AppendHistory(g: Gate, m: Markers, chunk: seq<Byte>)
    requires WatchHistory(g.stream, m, g.submissions) && AfterLast(g, g.buffer)
    ensures var h := Append(g, chunk); WatchHistory(h.stream, m, h.submissions) && AfterLast(h, h.buffer)
  {
    var h := Append(g, chunk);
    forall i | 0 <= i < |g.submissions| ensures Owned(h.stream, m, g.submissions[i]) {
      AppendOwned(g.stream, m, chunk, g.submissions[i]);
    }
    if g.submissions != [] {
      assert Owned(g.stream, m, g.submissions[|g.submissions| - 1]);
      AppendKeepsBefore(g.submissions[|g.submissions| - 1].prompt.marker, g, chunk);
    }
  }

  lemma AppendInv(g: Gate, m: Markers, watch: bool, chunk: seq<Byte>)
    requires Inv(g, m, watch)
    ensures Inv(Append(g, chunk), m, watch)
  {
    AppendBuffer(g, chunk);
    if watch {
      AppendHistory(g, m, chunk);
      if g.rebootSeen || g.armed {
        AppendKeepsBefore(g.reboot.marker, g, chunk);
      }
      if g.armed {
        AppendKeepsBefore(g.boundary.marker, g, chunk);
      }
    }
  }

  /** Cutting a match and the text after it out of the normalized buffer. */
  lemma CutEvidence(stream: seq<Byte>, buffer: seq<Tagged>, n: seq<Tagged>, span: Span)
    requires Rising(buffer) && Faithful(stream, buffer) && Selects(n, buffer)
    requires span.start < span.end <= |n|
    ensures var ev, rest := n[span.start..span.end], n[span.end..];
      && ev != [] && Within(ev, buffer) && Within(rest, buffer)
      && Rising(ev) && Rising(rest) && Faithful(stream, ev) && Faithful(stream, rest)
      && Before(ev, rest) && |rest| <= |buffer|
  {
    WithinFaithful(stream, buffer, n);
  }

  /** A match in the normalized buffer is genuine evidence, and what follows it is later. */
  lemma FoundGenuine(stream: seq<Byte>, buffer: seq<Tagged>, n: seq<Tagged>, search: Search, span: Span)
    requires Rising(buffer) && Faithful(stream, buffer) && Selects(n, buffer)
    requires search(Bytes(n)) == Some(span) && span.start < span.end <= |n|
    ensures var ev, rest := Found(n, span), n[span.end..];
      && Genuine(stream, search, ev) && Within(ev.marker, buffer) && Within(rest, buffer)
      && Rising(rest) && Faithful(stream, rest) && Before(ev.marker, rest) && |rest| <= |buffer|
  {
    CutEvidence(stream, buffer, n, span);
    WithinFaithful(stream, buffer, n);
    assert Rising(n) && Faithful(stream, n);
  }

  lemma RebootFound(g: Gate, m: Markers, ev: Evidence, rest: seq<Tagged>)
    requires Inv(g, m, true) && !g.armed && !g.rebootSeen
    requires Genuine(g.stream, m.reboot, ev) && Before(ev.marker, rest) && AfterLast(g, ev.marker) && AfterLast(g, rest)
    requires Rising(rest) && Faithful(g.stream, rest) && |rest| <= LIMIT
    ensures Inv(g.(rebootSeen := true, reboot := ev, buffer := rest), m, true)
  {
    var h := g.(rebootSeen := true, reboot := ev, buffer := rest);
    assert RebootHeld(h, m);
  }

  lemma BoundaryFound(g: Gate, m: Markers, ev: Evidence, rest: seq<Tagged>)
    requires Inv(g, m, true) && g.rebootSeen && AfterLast(g, rest)
    requires Genuine(g.stream, m.boundary, ev) && Before(g.reboot.marker, ev.marker)
    requires Before(ev.marker, rest) && Before(g.reboot.marker, rest)
    requires Rising(rest) && Faithful(g.stream, rest) && |rest| <= LIMIT
    ensures Inv(g.(armed := true, rebootSeen := false, boundary := ev, buffer := rest), m, true)
  {
    var h := g.(armed := true, rebootSeen := false, boundary := ev, buffer := rest);
    assert RebootHeld(h, m);
    assert BoundaryHeld(h, m);
  }

  lemma PromptFound(g: Gate, m: Markers, ev: Evidence)
    requires Inv(g, m, true) && g.armed
    requires Genuine(g.stream, m.prompt, ev) && Before(g.boundary.marker, ev.marker)
    ensures
      var all := g.submissions + [Submission(g.reboot, g.boundary, ev)];
      Inv(g.(armed := false, buffer := [], submissions := all), m, true)
  {
    var s := Submission(g.reboot, g.boundary, ev);
    assert Owned(g.stream, m, s);
    HistoryGrows(g.stream, m, g.submissions, s);
  }

  lemma LaterThanLast(g: Gate, s: seq<Tagged>)
    requires AfterLast(g, g.buffer) && Within(s, g.buffer)
    ensures AfterLast(g, s)
  {
    if g.submissions != [] {
      WithinBefore(g.submissions[|g.submissions| - 1].prompt.marker, g.buffer, s);
    }
  }

  lemma LookGenuine(g: Gate, m: Markers, watch: bool, search: Search)
    requires Inv(g, m, watch) && ProperSearch(search) && Look(search, g.buffer).Some?
    ensures var ev := Look(search, g.buffer).value;
      && Genuine(g.stream, search, ev) && Within(ev.marker, g.buffer) && Within(Rest(ev), g.buffer)
      && Rising(Rest(ev)) && Faithful(g.stream, Rest(ev)) && Before(ev.marker, Rest(ev)) && |Rest(ev)| <= |g.buffer|
  {
    var n := Normalize(g.buffer);
    NormalizeSelects(g.buffer);
    assert Proper(search(Bytes(n)), |Bytes(n)|);
    FoundGenuine(g.stream, g.buffer, n, search, search(Bytes(n)).value);
  }

  lemma SeeRebootInv(g: Gate, m: Markers)
    requires m.Sound() && Inv(g, m, true) && !g.armed && !g.rebootSeen
    ensures Inv(SeeReboot(g, Look(m.reboot, g.buffer)), m, true)
  {
    var hit := Look(m.reboot, g.buffer);
    if hit.Some? {
      LookGenuine(g, m, true, m.reboot);
      LaterThanLast(g, hit.value.marker);
      LaterThanLast(g, Rest(hit.value));
      RebootFound(g, m, hit.value, Rest(hit.value));
    }
  }

  /** Cutting the buffer behind a boundary keeps all held evidence earlier than the rest. */
  lemma SeeBoundaryInv(g: Gate, m: Markers)
    requires m.Sound() && Inv(g, m, true) && g.rebootSeen
    ensures Inv(SeeBoundary(g, Look(m.boundary, g.buffer)), m, true)
  {
    var hit := Look(m.boundary, g.buffer);
    if hit.Some? {
      LookGenuine(g, m, true, m.boundary);
      WithinBefore(g.reboot.marker, g.buffer, hit.value.marker);
      WithinBefore(g.reboot.marker, g.buffer, Rest(hit.value));
      LaterThanLast(g, Rest(hit.value));
      BoundaryFound(g, m, hit.value, Rest(hit.value));
    }
  }

  lemma SeePromptInv(g: Gate, m: Markers, watch: bool)
    requires m.Sound() && Inv(g, m, watch) && g.armed
    ensures Inv(SeePrompt(g, Look(m.prompt, g.buffer)), m, watch)
  {
    var hit := Look(m.prompt, g.buffer);
    if hit.Some? && watch {
      LookGenuine(g, m, true, m.prompt);
      WithinBefore(g.boundary.marker, g.buffer, hit.value.marker);
      PromptFound(g, m, hit.value);
    }
  }

  lemma HistoryGrows(stream: seq<Byte>, m: Markers, subs: seq<Submission>, s: Submission)
    requires WatchHistory(stream, m, subs) && Owned(stream, m, s)
    requires subs != [] ==> Before(subs[|subs| - 1].prompt.marker, s.reboot.marker)
    ensures WatchHistory(stream, m, subs + [s])
  {
    var all := subs + [s];
    forall i | 0 <= i < |all| ensures Owned(stream, m, all[i]) {
      assert i < |subs| ==> all[i] == subs[i];
    }
    forall i | 0 < i < |all| ensures Before(all[i - 1].prompt.marker, all[i].reboot.marker) {
      assert all[i - 1] == subs[i - 1] && (i < |subs| ==> all[i] == subs[i]);
    }
  }

  function Flatten(chunks: seq<seq<Byte>>): seq<Byte> {
    if chunks == [] then [] else Flatten(chunks[..|chunks| - 1]) + chunks[|chunks| - 1]
  }

  lemma {:induction false} FlattenPrefix(chunks: seq<seq<Byte>>, k: nat)
    requires k <= |chunks|
    ensures Flatten(chunks[..k]) <= Flatten(chunks)
    decreases |chunks|
  {
    if k < |chunks| {
      FlattenPrefix(chunks[..|chunks| - 1], k);
      assert chunks[..|chunks| - 1][..k] == chunks[..k];
    } else {
      assert chunks[..k] == chunks;
    }
  }

  /** The last 4096 bytes of a stream. */
  function Window(stream: seq<Byte>): seq<Tagged> {
    Truncated(Tag(stream, 0))
  }

  lemma WindowGrows(stream: seq<Byte>, chunk: seq<Byte>)
    ensures Truncated(Window(stream) + Tag(chunk, |stream|)) == Window(stream + chunk)
  {
    assert Tag(stream + chunk, 0) == Tag(stream, 0) + Tag(chunk, |stream|);
  }

  /** The latest window of the stream shows the prompt. */
  predicate PromptShown(m: Markers, stream: seq<Byte>) {
    m.prompt(Bytes(Normalize(Window(stream)))).Some?
  }

  /* ---------- one pass of the read loop ---------- */

  /** A watcher that is not armed looks for the reboot marker, then for the boundary. */
  function Armed(g: Gate, e: Eyes): Gate {
    var h := if g.rebootSeen then g else SeeReboot(g, e.reboot(g.buffer));
    if h.rebootSeen then SeeBoundary(h, e.boundary(h.buffer)) else h
  }

  /** An armed gate submits when its buffer shows the prompt. */
  function Submitted(g: Gate, e: Eyes): Gate {
    if g.armed then SeePrompt(g, e.prompt(g.buffer)) else g
  }

  function Pass(g: Gate, chunk: seq<Byte>, watch: bool, e: Eyes): Gate {
    var h := Append(g, chunk);
    Submitted(if watch && !h.armed then Armed(h, e) else h, e)
  }

  lemma ArmedInv(g: Gate, m: Markers)
    requires m.Sound() && Inv(g, m, true) && !g.armed
    ensures Inv(Armed(g, EyesOf(m)), m, true)
  {
    var h := g;
    if !g.rebootSeen {
      SeeRebootInv(g, m);
      h := SeeReboot(g, Look(m.reboot, g.buffer));
    }
    if h.rebootSeen { SeeBoundaryInv(h, m); }
  }

  lemma PassInv(g: Gate, chunk: seq<Byte>, watch: bool, m: Markers)
    requires m.Sound() && Inv(g, m, watch)
    ensures Inv(Pass(g, chunk, watch, EyesOf(m)), m, watch)
  {
    AppendInv(g, m, watch, chunk);
    var h := Append(g, chunk);
    if watch && !h.armed {
      ArmedInv(h, m);
      h := Armed(h, EyesOf(m));
    }
    if h.armed { SeePromptInv(h, m, watch); }
  }

  lemma PassStream(g: Gate, chunk: seq<Byte>, watch: bool, e: Eyes)
    ensures Pass(g, chunk, watch, e).stream == g.stream + chunk
  {
  }

  /** What an armed gate does: it submits once if the last 4096 bytes show the prompt, and otherwise
      only remembers them. */
  lemma ArmedPass(g: Gate, chunk: seq<Byte>, watch: bool, m: Markers)
    requires m.Sound() && g.armed
    ensures var h, n := Pass(g, chunk, watch, EyesOf(m)), Normalize(Truncated(g.buffer + Tag(chunk, |g.stream|)));
      if m.prompt(Bytes(n)).Some?
      then |h.submissions| == |g.submissions| + 1 && g.submissions <= h.submissions
           && h.submissions[|g.submissions|].prompt.window == n && !h.armed && h.buffer == []
      else h == Append(g, chunk)
  {
  }

  /** What a watcher that is not armed does: having seen the reboot it waits for the boundary, and
      before that for the reboot; behind each it goes on with the rest of the text. */
  lemma UnarmedPass(g: Gate, chunk: seq<Byte>, m: Markers)
    requires m.Sound() && !g.armed
    ensures var h, n := Pass(g, chunk, true, EyesOf(m)), Normalize(Truncated(g.buffer + Tag(chunk, |g.stream|)));
      if g.rebootSeen then
        if m.boundary(Bytes(n)).Some? then Arms(g, h, m, n) else h == Append(g, chunk)
      else if m.reboot(Bytes(n)).Some? then
        var rest := Normalize(n[m.reboot(Bytes(n)).value.end..]);
        if m.boundary(Bytes(rest)).Some? then Arms(g, h, m, rest)
        else h.rebootSeen && !h.armed && Normalize(h.buffer) == rest && h.submissions == g.submissions
      else h == Append(g, chunk)
  {
    var n := Normalize(Truncated(g.buffer + Tag(chunk, |g.stream|)));
    assert Proper(m.reboot(Bytes(n)), |Bytes(n)|);
  }

  /** From `g`, the boundary in `n` arms the gate, which submits at once if the prompt follows. */
  predicate Arms(g: Gate, h: Gate, m: Markers, n: seq<Tagged>)
    requires m.Sound() && m.boundary(Bytes(n)).Some?
  {
    assert Proper(m.boundary(Bytes(n)), |Bytes(n)|);
    var rest := n[m.boundary(Bytes(n)).value.end..];
    && !h.rebootSeen
    && if m.prompt(Bytes(Normalize(rest))).None?
       then h.armed && h.buffer == rest && h.submissions == g.submissions
       else !h.armed && h.buffer == [] && |h.submissions| == |g.submissions| + 1 && g.submissions <= h.submissions
  }

  /* ---------- whole runs ---------- */

  function Opening(watch: bool): Gate {
    Gate([], [], !watch, false, NOTHING, NOTHING, [])
  }

  /** The gate after these chunks; a one-shot run stops at its submission. */
  function Gates(chunks: seq<seq<Byte>>, watch: bool, e: Eyes): Gate {
    if chunks == [] then Opening(watch)
    else
      var g := Gates(chunks[..|chunks| - 1], watch, e);
      if !watch && g.submissions != [] then g else Pass(g, chunks[|chunks| - 1], watch, e)
  }

  lemma GatesNext(chunks: seq<seq<Byte>>, c: seq<Byte>, watch: bool, e: Eyes)
    ensures var g := Gates(chunks, watch, e);
      Gates(chunks + [c], watch, e) == if !watch && g.submissions != [] then g else Pass(g, c, watch, e)
  {
    assert (chunks + [c])[..|chunks|] == chunks;
  }

  lemma {:induction false} GatesStay(chunks: seq<seq<Byte>>, e: Eyes, k: nat)
    requires k <= |chunks| && Gates(chunks[..k], false, e).submissions != []
    ensures Gates(chunks, false, e) == Gates(chunks[..k], false, e)
    decreases |chunks|
  {
    if k < |chunks| {
      assert chunks[..|chunks| - 1][..k] == chunks[..k];
      GatesStay(chunks[..|chunks| - 1], e, k);
    } else {
      assert chunks[..k] == chunks;
    }
  }

  lemma {:induction false} GatesInv(chunks: seq<seq<Byte>>, watch: bool, m: Markers)
    requires m.Sound()
    ensures Inv(Gates(chunks, watch, EyesOf(m)), m, watch)
  {
    if chunks != [] {
      var n := |chunks| - 1;
      GatesInv(chunks[..n], watch, m);
      PassInv(Gates(chunks[..n], watch, EyesOf(m)), chunks[n], watch, m);
    }
  }

  lemma {:induction false} GatesStream(chunks: seq<seq<Byte>>, watch: bool, e: Eyes)
    ensures var g := Gates(chunks, watch, e);
      g.stream <= Flatten(chunks) && (watch || g.submissions == [] ==> g.stream == Flatten(chunks))
  {
    if chunks != [] {
      var n := |chunks| - 1;
      GatesStream(chunks[..n], watch, e);
      PassStream(Gates(chunks[..n], watch, e), chunks[n], watch, e);
    }
  }

  /** Nothing submitted, nothing cut: the buffer is all the stream has to show. */
  lemma {:induction false} OneShotWindow(chunks: seq<seq<Byte>>, e: Eyes)
    requires Gates(chunks, false, e).submissions == []
    ensures var g := Gates(chunks, false, e); g.armed && g.stream == Flatten(chunks) && g.buffer == Window(g.stream)
  {
    if chunks != [] {
      var n := |chunks| - 1;
      OneShotWindow(chunks[..n], e);
      WindowGrows(Flatten(chunks[..n]), chunks[n]);
    }
  }

  ghost predicate Somewhere(p: seq<seq<Byte>> -> bool, chunks: seq<seq<Byte>>) {
    exists k :: 0 < k <= |chunks| && p(chunks[..k])
  }

  lemma SomewhereNext(p: seq<seq<Byte>> -> bool, chunks: seq<seq<Byte>>, c: seq<Byte>)
    ensures Somewhere(p, chunks + [c]) <==> Somewhere(p, chunks) || p(chunks + [c])
  {
    var all := chunks + [c];
    assert forall k :: 0 < k <= |chunks| ==> all[..k] == chunks[..k];
    assert all[..|all|] == all;
  }

  function Shown(m: Markers): seq<seq<Byte>> -> bool {
    chunks => PromptShown(m, Flatten(chunks))
  }

  /** After some of the chunks the last 4096 bytes of the stream show the prompt. */
  ghost predicate PromptAppears(m: Markers, chunks: seq<seq<Byte>>) {
    Somewhere(Shown(m), chunks)
  }

  lemma FlattenNext(chunks: seq<seq<Byte>>, c: seq<Byte>)
    ensures Flatten(chunks + [c]) == Flatten(chunks) + c
  {
    assert (chunks + [c])[..|chunks|] == chunks;
  }

  /** A gate that has submitted nothing does so with the next chunk if that completes the prompt. */
  lemma OneShotNext(chunks: seq<seq<Byte>>, c: seq<Byte>, m: Markers)
    requires m.Sound() && Gates(chunks, false, EyesOf(m)).submissions == []
    ensures Gates(chunks + [c], false, EyesOf(m)).submissions != [] <==> Shown(m)(chunks + [c])
  {
    FlattenNext(chunks, c);
    var g := Gates(chunks, false, EyesOf(m));
    GatesNext(chunks, c, false, EyesOf(m));
    OneShotWindow(chunks, EyesOf(m));
    WindowGrows(g.stream, c);
    ArmedPass(g, c, false, m);
  }

  /** A one-shot run submits if and only if the prompt appears, however the stream is cut up. */
  lemma {:induction false} OneShotExactly(chunks: seq<seq<Byte>>, m: Markers)
    requires m.Sound()
    ensures Gates(chunks, false, EyesOf(m)).submissions != [] <==> PromptAppears(m, chunks)
  {
    if chunks != [] {
      var init, c := chunks[..|chunks| - 1], chunks[|chunks| - 1];
      assert chunks == init + [c];
      OneShotExactly(init, m);
      SomewhereNext(Shown(m), init, c);
      if Gates(init, false, EyesOf(m)).submissions == [] {
        OneShotNext(init, c, m);
      } else {
        GatesNext(init, c, false, EyesOf(m));
      }
    }
  }

  /* ---------- a watcher submits at every boot ---------- */

  predicate Idle(g: Gate) {
    !g.armed && !g.rebootSeen && g.buffer == []
  }

  /** Wherever it stands in the stream, the text shows the marker at its end. */
  ghost predicate EndsWith(eye: Eye, text: seq<Byte>) {
    |text| <= LIMIT && forall base: nat :: ShownAt(eye, text, base)
  }

  predicate ShownAt(eye: Eye, text: seq<Byte>, base: nat) {
    eye(Tag(text, base)).Some? && Rest(eye(Tag(text, base)).value) == []
  }

  /** One boot on the console, in three texts: the reboot marker, the boundary, the prompt. */
  ghost predicate Boots(e: Eyes, a: seq<Byte>, b: seq<Byte>, c: seq<Byte>) {
    && EndsWith(e.reboot, a) && EndsWith(e.boundary, b) && EndsWith(e.prompt, c)
    && e.boundary([]).None? && e.prompt([]).None?
  }

  lemma WholeText(g: Gate, text: seq<Byte>)
    requires g.buffer == [] && |text| <= LIMIT
    ensures Append(g, text).buffer == Tag(text, |g.stream|)
  {
    assert [] + Tag(text, |g.stream|) == Tag(text, |g.stream|);
  }

  lemma BootSubmits(g: Gate, a: seq<Byte>, b: seq<Byte>, c: seq<Byte>, e: Eyes)
    requires Idle(g) && Boots(e, a, b, c)
    ensures var h := Pass(Pass(Pass(g, a, true, e), b, true, e), c, true, e);
      Idle(h) && |h.submissions| == |g.submissions| + 1
  {
    WholeText(g, a);
    assert ShownAt(e.reboot, a, |g.stream|);
    var x := Pass(g, a, true, e);
    WholeText(x, b);
    assert ShownAt(e.boundary, b, |x.stream|);
    var y := Pass(x, b, true, e);
    WholeText(y, c);
    assert ShownAt(e.prompt, c, |y.stream|);
  }

  lemma ThreePasses(chunks: seq<seq<Byte>>, a: seq<Byte>, b: seq<Byte>, c: seq<Byte>, e: Eyes)
    ensures Gates(chunks + [a] + [b] + [c], true, e) ==
            Pass(Pass(Pass(Gates(chunks, true, e), a, true, e), b, true, e), c, true, e)
  {
    GatesNext(chunks, a, true, e);
    GatesNext(chunks + [a], b, true, e);
    GatesNext(chunks + [a] + [b], c, true, e);
  }

  lemma NextBootSeen(chunks: seq<seq<Byte>>, a: seq<Byte>, b: seq<Byte>, c: seq<Byte>, e: Eyes)
    requires Boots(e, a, b, c) && Idle(Gates(chunks, true, e))
    ensures var h := Gates(chunks + [a] + [b] + [c], true, e);
      Idle(h) && |h.submissions| == |Gates(chunks, true, e).submissions| + 1
  {
    ThreePasses(chunks, a, b, c, e);
    BootSubmits(Gates(chunks, true, e), a, b, c, e);
  }

  function Repeated(a: seq<Byte>, b: seq<Byte>, c: seq<Byte>, times: nat): seq<seq<Byte>> {
    if times == 0 then [] else Repeated(a, b, c, times - 1) + [a] + [b] + [c]
  }

  lemma {:induction false} EveryBootSeen(e: Eyes, a: seq<Byte>, b: seq<Byte>, c: seq<Byte>, times: nat)
    requires Boots(e, a, b, c)
    ensures var g := Gates(Repeated(a, b, c, times), true, e); Idle(g) && |g.submissions| == times
  {
    if times > 0 {
      var before := Repeated(a, b, c, times - 1);
      EveryBootSeen(e, a, b, c, times - 1);
      NextBootSeen(before, a, b, c, e);
      assert Repeated(a, b, c, times) == before + [a] + [b] + [c];
    }
  }

  /** A text without control sequences that ends with a match. */
  predicate Shows(search: Search, text: seq<Byte>) {
    |text| <= LIMIT && ESC !in text && search(text).Some? && search(text).value.end == |text|
  }

  lemma PlainText(text: seq<Byte>, base: nat)
    requires ESC !in text
    ensures Normalize(Tag(text, base)) == Tag(text, base) && Bytes(Tag(text, base)) == text
  {
    var t := Tag(text, base);
    assert t + [] == t;
    forall i | 0 <= i < |t| ensures t[i].byte != ESC { assert text[i] in text; }
    PlainKept(t, []);
  }

  /** A watcher submits exactly once for each boot, for any number of boots in a row. */
  lemma EveryBootSubmits(m: Markers, a: seq<Byte>, b: seq<Byte>, c: seq<Byte>, times: nat)
    requires m.Sound() && Shows(m.reboot, a) && Shows(m.boundary, b) && Shows(m.prompt, c)
    ensures |Gates(Repeated(a, b, c, times), true, EyesOf(m)).submissions| == times
  {
    var e := EyesOf(m);
    forall base: nat
      ensures ShownAt(e.reboot, a, base) && ShownAt(e.boundary, b, base) && ShownAt(e.prompt, c, base)
    {
      PlainText(a, base);
      PlainText(b, base);
      PlainText(c, base);
    }
    assert Proper(m.boundary([]), 0) && Proper(m.prompt([]), 0) && Bytes([]) == [];
    EveryBootSeen(e, a, b, c, times);
  }

  /* ---------- the program ---------- */

  /** One pass: append, look for what the gate waits for, submit. */
  method Feed(g: Gate, chunk: seq<Byte>, watch: bool, e: Eyes) returns (h: Gate)
    ensures h == Pass(g, chunk, watch, e)
  {
    h := Append(g, chunk);
    if watch && !h.armed { h := Arm(h, e); }
    if h.armed { h := Submit(h, e); }
  }

  method Arm(g: Gate, e: Eyes) returns (h: Gate)
    ensures h == Armed(g, e)
  {
    h := g;
    if !h.rebootSeen { h := SeeReboot(h, e.reboot(h.buffer)); }
    if h.rebootSeen { h := SeeBoundary(h, e.boundary(h.buffer)); }
  }

  method Submit(g: Gate, e: Eyes) returns (h: Gate)
    requires g.armed
    ensures h == Submitted(g, e)
  {
    h := SeePrompt(g, e.prompt(g.buffer));
  }

  /** The longest buffer held after any of the chunks. */
  function Peak(chunks: seq<seq<Byte>>, watch: bool, e: Eyes): nat {
    if chunks == [] then 0
    else Max(Peak(chunks[..|chunks| - 1], watch, e), |Gates(chunks, watch, e).buffer|)
  }

  function Max(a: nat, b: nat): nat {
    if a < b then b else a
  }

  lemma {:induction false} PeakIsLongest(chunks: seq<seq<Byte>>, watch: bool, e: Eyes, k: nat)
    requires k <= |chunks|
    ensures |Gates(chunks[..k], watch, e).buffer| <= Peak(chunks, watch, e)
  {
    if k < |chunks| {
      PeakIsLongest(chunks[..|chunks| - 1], watch, e, k);
      assert chunks[..|chunks| - 1][..k] == chunks[..k];
    } else {
      assert chunks[..k] == chunks;
    }
  }

  lemma {:induction false} PeakIsHeld(chunks: seq<seq<Byte>>, watch: bool, e: Eyes) returns (k: nat)
    ensures k <= |chunks| && |Gates(chunks[..k], watch, e).buffer| == Peak(chunks, watch, e)
  {
    k := |chunks|;
    assert chunks[..k] == chunks;
    if chunks != [] && Peak(chunks, watch, e) != |Gates(chunks, watch, e).buffer| {
      k := PeakIsHeld(chunks[..|chunks| - 1], watch, e);
      assert chunks[..|chunks| - 1][..k] == chunks[..k];
    }
  }

  lemma {:induction false} PeakStays(chunks: seq<seq<Byte>>, e: Eyes, k: nat)
    requires 0 < k <= |chunks| && Gates(chunks[..k], false, e).submissions != []
    ensures Peak(chunks, false, e) == Peak(chunks[..k], false, e)
    decreases |chunks|
  {
    var n := |chunks| - 1;
    if k <= n {
      assert chunks[..n][..k] == chunks[..k];
      GatesStay(chunks, e, k);
      GatesStay(chunks[..n], e, k);
      PeakStays(chunks[..n], e, k);
      PeakIsLongest(chunks[..n], false, e, n);
      assert chunks[..n][..n] == chunks[..n];
    } else {
      assert chunks[..k] == chunks;
    }
  }

  /** One more chunk, and where it may end the run. */
  lemma ReadNext(chunks: seq<seq<Byte>>, i: nat, watch: bool, e: Eyes)
    requires i < |chunks| && (watch || Gates(chunks[..i], watch, e).submissions == [])
    ensures var g, h := Gates(chunks[..i], watch, e), Gates(chunks[..i + 1], watch, e);
      && h == Pass(g, chunks[i], watch, e)
      && Peak(chunks[..i + 1], watch, e) == Max(Peak(chunks[..i], watch, e), |h.buffer|)
      && (!watch && h.submissions != [] ==>
            Gates(chunks, watch, e) == h && Peak(chunks, watch, e) == Peak(chunks[..i + 1], watch, e))
  {
    assert chunks[..i + 1] == chunks[..i] + [chunks[i]];
    assert chunks[..i + 1][..i] == chunks[..i];
    GatesNext(chunks[..i], chunks[i], watch, e);
    if !watch && Gates(chunks[..i + 1], watch, e).submissions != [] {
      GatesStay(chunks, e, i + 1);
      PeakStays(chunks, e, i + 1);
    }
  }

  /** The read loop, and the longest buffer it ever holds. */
  method Read(chunks: seq<seq<Byte>>, watch: bool, e: Eyes) returns (g: Gate, peak: nat)
    ensures g == Gates(chunks, watch, e) && peak == Peak(chunks, watch, e)
  {
    g, peak := Opening(watch), 0;
    var i := 0;
    while i < |chunks|
      invariant 0 <= i <= |chunks| && (watch || g.submissions == [])
      invariant g == Gates(chunks[..i], watch, e) && peak == Peak(chunks[..i], watch, e)
    {
      ReadNext(chunks, i, watch, e);
      g := Feed(g, chunks[i], watch, e);
      peak := Max(peak, |g.buffer|);
      i := i + 1;
      if !watch && g.submissions != [] { return; }
    }
    assert chunks[..i] == chunks;
  }

  /** `run_console`, for any sequence of chunks: every passphrase submission with its evidence, and
      the longest buffer ever held. */
  method RunConsole(chunks: seq<seq<Byte>>, watch: bool, m: Markers)
    returns (stream: seq<Byte>, submissions: seq<Submission>, peak: nat)
    requires m.Sound()
    ensures peak == Peak(chunks, watch, EyesOf(m)) <= LIMIT
    ensures stream <= Flatten(chunks) && (watch ==> stream == Flatten(chunks))
    ensures watch ==> WatchHistory(stream, m, submissions)
    ensures submissions == Gates(chunks, watch, EyesOf(m)).submissions
    ensures !watch ==> |submissions| == if PromptAppears(m, chunks) then 1 else 0
  {
    var g;
    g, peak := Read(chunks, watch, EyesOf(m));
    ghost var k := PeakIsHeld(chunks, watch, EyesOf(m));
    GatesInv(chunks[..k], watch, m);
    GatesInv(chunks, watch, m);
    GatesStream(chunks, watch, EyesOf(m));
    if !watch { OneShotExactly(chunks, m); }
    stream, submissions := g.stream, g.submissions;
  }
}
