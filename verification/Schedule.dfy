/** The schedule journal of `schedule.py`: prepare a candidate, freeze it, certify it once. An
    invocation may be cut before any durable write; the candidate may be altered at any time. */
module Schedule {
  import opened Options
  import opened Histories

  type Digest = int

  /** `schedule.json`; from `Prepared` on it names the frozen candidate. */
  datatype Journal = Preparing | Prepared(candidate: Digest) | Certifying(candidate: Digest) | Failed
    | Complete(candidate: Digest)

  datatype Event =
    | Froze(candidate: Digest)
    | Started(candidate: Digest, invocation: nat)
    | Passed(candidate: Digest, invocation: nat)
    | Cleaned(invocation: nat)
    | Completed(candidate: Digest, invocation: nat)

  /** The certifier starts once at most, on the candidate that was frozen; completion directly
      follows its start, its success on that same candidate, and the credential cleanup, all in
      one invocation. */
  ghost predicate Allowed(past: seq<Event>, e: Event) {
    match e
    case Started(d, n) => Froze(d) in past && forall x :: x in past ==> !x.Started?
    case Froze(_) => forall x :: x in past ==> !x.Froze? && !x.Started?
    case Completed(d, n) =>
      && |past| >= 3 && past[|past| - 3..] == [Started(d, n), Passed(d, n), Cleaned(n)]
    case _ => true
  }

  ghost predicate Lawful(log: seq<Event>) {
    Obeyed(Allowed, log)
  }

  /** What the world does: where the invocation dies, whether the window is open before and after
      preparation, what candidate is built, whether the certifier passes and leaves what
      candidate behind, whether the cleanup succeeds. */
  datatype Env = Env(cut: nat, openBefore: bool, openAfter: bool, builds: Option<Digest>, passes: bool,
                     leaves: Option<Digest>, cleans: bool)

  datatype Mode = Normal | PrepareOnly | CleanupOnly
  datatype Reply = Deferred | Refused | AlreadyCertified | PreparedReply | CleanupReply | Died | Certified

  lemma CompletionAllowed(log: seq<Event>, d: Digest, n: nat)
    requires |log| >= 2 && log[|log| - 2..] == [Started(d, n), Passed(d, n)]
    ensures Allowed(log + [Cleaned(n)], Completed(d, n))
  {
    var all := log + [Cleaned(n)];
    assert all[|all| - 3..] == log[|log| - 2..] + [Cleaned(n)];
    assert all[|all| - 3..] == [Started(d, n), Passed(d, n), Cleaned(n)];
  }

  /** The journal says `ua03-complete` exactly when the log has the completion. */
  ghost predicate Agrees(journal: Option<Journal>, log: seq<Event>) {
    && (journal.Some? && journal.value.Complete? ==>
          exists i :: 0 <= i < |log| && log[i].Completed? && log[i].candidate == journal.value.candidate)
    && (forall i :: 0 <= i < |log| && log[i].Completed? ==> journal == Some(Complete(log[i].candidate)))
  }

  /* ---------- what one invocation leaves ---------- */

  datatype State = State(journal: Option<Journal>, candidate: Option<Digest>, log: seq<Event>)

  /** The journal names a frozen candidate, and it is still there. */
  predicate Frozen(s: State) {
    && s.journal.Some? && (s.journal.value.Prepared? || s.journal.value.Complete?)
    && s.candidate == Some(s.journal.value.candidate)
  }

  /** Preparation: `preparing`, the candidate, the verdict, as far as the process lives. */
  function AfterPrepare(s: State, env: Env): State {
    if s.candidate.Some? || env.cut == 0 then s
    else if env.cut == 1 then s.(journal := Some(Preparing))
    else if env.cut == 2 then s.(journal := Some(Preparing), candidate := env.builds)
    else if env.builds.None? then s.(journal := Some(Failed), candidate := None)
    else State(Some(Prepared(env.builds.value)), env.builds, s.log + [Froze(env.builds.value)])
  }

  /** The certifier passed and left the candidate alone. */
  predicate Passes(d: Digest, env: Env) {
    env.passes && env.leaves == Some(d)
  }

  function When(b: bool, e: Event): seq<Event> {
    if b then [e] else []
  }

  lemma Joined(log: seq<Event>, a: seq<Event>, b: seq<Event>, c: seq<Event>)
    ensures log + a + b + c == log + (a + b + c)
  {
  }

  /** What follows the start of the certifier, as far as the process lives. */
  function Verdict(d: Digest, n: nat, env: Env): seq<Event> {
    When(Passes(d, env), Passed(d, n)) + When(env.cut != 5 && env.cleans, Cleaned(n))
    + When(env.cut != 5 && env.cut != 6 && Passes(d, env) && env.cleans, Completed(d, n))
  }

  function AfterCertify(s: State, d: Digest, n: nat, env: Env): State {
    State(if env.cut == 3 then s.journal
          else if 4 <= env.cut <= 6 then Some(Certifying(d))
          else if Passes(d, env) && env.cleans then Some(Complete(d)) else Some(Failed),
          if env.cut == 3 || env.cut == 4 then s.candidate else env.leaves,
          if env.cut == 3 || env.cut == 4 then s.log else s.log + [Started(d, n)] + Verdict(d, n, env))
  }

  /** Where an invocation stops before the certifier, if it does, and what it has done by then. */
  function Stopped(s: State, mode: Mode, env: Env): (r: (State, Option<Reply>))
    ensures r.1.None? ==> r.0.journal.Some? && r.0.journal.value.Prepared?
  {
    if mode.CleanupOnly? then (s, Some(if env.cleans then CleanupReply else Refused))
    else if mode.Normal? && !env.openBefore then (s, Some(Deferred))
    else if s.journal.Some? && !Frozen(s) then (s, Some(Refused))
    else if s.journal.Some? && s.journal.value.Complete? then (s, Some(AlreadyCertified))
    else
      var p := if s.journal.None? then AfterPrepare(s, env) else s;
      if p.journal.None? || !p.journal.value.Prepared? then
        (p, Some(if s.candidate.None? && env.cut <= 2 then Died else Refused))
      else if mode.PrepareOnly? then (p, Some(PreparedReply))
      else if !env.openAfter then (p, Some(Deferred))
      else (p, None)
  }

  function Executed(s: State, n: nat, mode: Mode, env: Env): (State, Reply) {
    var (p, stop) := Stopped(s, mode, env);
    if stop.Some? then (p, stop.value)
    else
      var d := p.journal.value.candidate;
      (AfterCertify(p, d, n, env),
       if 3 <= env.cut <= 6 then Died else if Passes(d, env) && env.cleans then Certified else Refused)
  }

  /** The certifier only ever starts in a normal invocation, in an open window that is still open
      after preparation, and on a frozen candidate. */
  lemma StartsInWindow(s: State, n: nat, mode: Mode, env: Env)
    requires Starts(s.log, Executed(s, n, mode, env).0.log)
    ensures mode.Normal? && env.openBefore && env.openAfter && (s.journal.None? || Frozen(s))
  {
    var (p, stop) := Stopped(s, mode, env);
    assert p.log == s.log || (p.log == s.log + [p.log[|s.log|]] && p.log[|s.log|].Froze?);
  }

  /** The invocation may go on to preparation and certification. */
  predicate Admitted(mode: Mode, env: Env) {
    mode.PrepareOnly? || (mode.Normal? && env.openBefore)
  }

  /** A candidate can be built, where there is none, and is. */
  predicate Builds(s: State, env: Env) {
    s.journal.None? && s.candidate.None? && env.cut > 2 && env.builds.Some?
  }

  /** The candidate that is or becomes the frozen one. */
  function FrozenOne(s: State, env: Env): Option<Digest> {
    if Builds(s, env) then env.builds
    else if s.journal.Some? && s.journal.value.Prepared? && s.candidate == Some(s.journal.value.candidate)
    then s.candidate else None
  }

  predicate Lives(env: Env) {
    env.cut < 3 || env.cut > 6
  }

  /** Which answer an invocation gives, and what that means. */
  lemma Answers(s: State, n: nat, mode: Mode, env: Env)
    ensures var (t, r) := Executed(s, n, mode, env);
      var d := FrozenOne(s, env);
      && (r.Certified? <==>
            && mode.Normal? && env.openBefore && env.openAfter && d.Some? && Lives(env)
            && env.passes && env.leaves == d && env.cleans)
      && (r.AlreadyCertified? <==>
            && Admitted(mode, env) && s.journal.Some? && s.journal.value.Complete?
            && s.candidate == Some(s.journal.value.candidate))
      && (r.PreparedReply? <==> mode.PrepareOnly? && d.Some?)
      && (r.Deferred? <==>
            mode.Normal? && (!env.openBefore || (!env.openAfter && d.Some?)))
      && (r.CleanupReply? <==> mode.CleanupOnly? && env.cleans)
      && (r.Died? <==>
            || (Admitted(mode, env) && s.journal.None? && s.candidate.None? && env.cut <= 2)
            || (mode.Normal? && env.openBefore && env.openAfter && d.Some? && !Lives(env)))
  {
  }

  /** What becomes of the journal and the candidate. A death leaves what had been journaled, and a
      certification that ends without a pass has failed. */
  lemma Leaves(s: State, n: nat, mode: Mode, env: Env)
    ensures var (t, r) := Executed(s, n, mode, env);
      var d := FrozenOne(s, env);
      var certifies := mode.Normal? && env.openBefore && env.openAfter && d.Some?;
      && (r.Certified? ==> t.journal == Some(Complete(d.value)))
      && (certifies && Lives(env) && !r.Certified? ==> r.Refused? && t.journal == Some(Failed))
      && (certifies && 4 <= env.cut <= 6 ==> t.journal == Some(Certifying(d.value)))
      && (certifies && env.cut >= 5 ==> t.candidate == env.leaves)
      && (Admitted(mode, env) && d.Some? && (!certifies || env.cut == 3) ==>
            t.journal == Some(Prepared(d.value)) && t.candidate == d)
      && (Admitted(mode, env) && s.journal.None? && s.candidate.None? && env.builds.None? && env.cut > 2 ==>
            r.Refused? && t.journal == Some(Failed) && t.candidate.None?)
      && (Admitted(mode, env) && s.journal.None? && s.candidate.None? && env.cut <= 2 ==>
            && t.journal == (if env.cut == 0 then None else Some(Preparing))
            && t.candidate == (if env.cut <= 1 then None else env.builds) && t.log == s.log)
      && (!Admitted(mode, env) || (s.journal.None? && s.candidate.Some?) || (s.journal.Some? && d.None?) ==> t == s)
  {
  }

  /** And what of the log: nothing, the freezing, and the start and verdict of a certification. */
  lemma Logs(s: State, n: nat, mode: Mode, env: Env)
    ensures var t := Executed(s, n, mode, env).0;
      var d := FrozenOne(s, env);
      var prepared := s.log + (if Admitted(mode, env) && Builds(s, env) then [Froze(env.builds.value)] else []);
      if mode.Normal? && env.openBefore && env.openAfter && d.Some? && env.cut != 3 && env.cut != 4
      then t.log == prepared + [Started(d.value, n)] + Verdict(d.value, n, env)
      else t.log == prepared
  {
    assert s.log + [] == s.log;
  }

  /** The verdict: each of its three events, in this order and none but these, if it is due. */
  lemma VerdictIs(d: Digest, n: nat, env: Env)
    ensures var v := Verdict(d, n, env);
      && (Passed(d, n) in v <==> env.passes && env.leaves == Some(d))
      && (Cleaned(n) in v <==> env.cleans && env.cut != 5)
      && (Completed(d, n) in v <==> v == [Passed(d, n), Cleaned(n), Completed(d, n)])
      && (Completed(d, n) in v <==> env.passes && env.leaves == Some(d) && env.cleans && env.cut != 5 && env.cut != 6)
      && (v <= [Passed(d, n), Cleaned(n), Completed(d, n)] || v == [Cleaned(n)])
  {
    assert When(true, Passed(d, n))[0] == Passed(d, n);
  }

  ghost predicate Starts(before: seq<Event>, after: seq<Event>) {
    exists i :: |before| <= i < |after| && after[i].Started?
  }

  class Schedule {
    var journal: Option<Journal>
    var candidate: Option<Digest>
    var invocations: nat
    var log: seq<Event>

    ghost predicate Valid() reads this {
      && Lawful(log) && Agrees(journal, log)
      && (journal.None? || journal.value.Preparing? ==> log == [])
      && (journal.Some? && journal.value.Prepared? ==>
            Froze(journal.value.candidate) in log && forall e :: e in log ==> !e.Started?)
    }

    function Now(): State reads this {
      State(journal, candidate, log)
    }

    constructor (found: Option<Digest>)
      ensures Valid() && Now() == State(None, found, []) && invocations == 0
    {
      journal, candidate, invocations, log := None, found, 0, [];
    }

    /** Anyone may replace or remove the candidate. */
    method Interfere(other: Option<Digest>)
      modifies this`candidate
      ensures candidate == other
    {
      candidate := other;
    }

    /** The preparing half of `execute`. */
    method Prepare(env: Env) returns (ok: bool, r: Reply)
      requires Valid() && journal.None?
      modifies this`journal, this`candidate, this`log
      ensures Valid() && Now() == AfterPrepare(old(Now()), env)
      ensures ok <==> journal.Some? && journal.value.Prepared?
      ensures !ok ==> r == if old(candidate).None? && env.cut <= 2 then Died else Refused
    {
      if candidate.Some? { return false, Refused; }
      if env.cut == 0 { return false, Died; }
      journal := Some(Preparing);
      if env.cut == 1 { return false, Died; }
      candidate := env.builds;
      if env.cut == 2 { return false, Died; }
      if env.builds.None? {
        journal := Some(Failed);
        return false, Refused;
      }
      ObeyedNext(Allowed, log, Froze(env.builds.value));
      log := log + [Froze(env.builds.value)];
      journal := Some(Prepared(env.builds.value));
      return true, PreparedReply;
    }

    /** The certifying half: `certifying` is journaled before the certifier runs. */
    method Certify(n: nat, env: Env) returns (r: Reply)
      requires Valid() && journal.Some? && journal.value.Prepared?
      modifies this`journal, this`candidate, this`log
      ensures Valid() && Now() == AfterCertify(old(Now()), old(journal).value.candidate, n, env)
      ensures r == if 3 <= env.cut <= 6 then Died
                   else if Passes(old(journal).value.candidate, env) && env.cleans then Certified else Refused
    {
      var d := journal.value.candidate;
      if env.cut == 3 { return Died; }
      journal := Some(Certifying(d));
      if env.cut == 4 { return Died; }
      Note(Started(d, n));
      candidate := env.leaves;
      r := Conclude(d, n, env);
    }

    /** The certifier has ended: check, clean up, journal the verdict. */
    method Conclude(d: Digest, n: nat, env: Env) returns (r: Reply)
      requires Valid() && journal == Some(Certifying(d)) && log != [] && log[|log| - 1] == Started(d, n)
      requires candidate == env.leaves && env.cut != 3 && env.cut != 4
      modifies this`journal, this`log
      ensures Valid() && log == old(log) + Verdict(d, n, env)
      ensures journal == if 5 <= env.cut <= 6 then Some(Certifying(d))
                         else if Passes(d, env) && env.cleans then Some(Complete(d)) else Some(Failed)
      ensures r == if 5 <= env.cut <= 6 then Died
                   else if Passes(d, env) && env.cleans then Certified else Refused
    {
      var passed := env.passes && candidate == Some(d);
      if passed { Note(Passed(d, n)); }
      assert log == old(log) + When(passed, Passed(d, n));
      Joined(old(log), When(passed, Passed(d, n)), When(env.cut != 5 && env.cleans, Cleaned(n)),
             When(env.cut != 5 && env.cut != 6 && passed && env.cleans, Completed(d, n)));
      if env.cut == 5 { return Died; }
      r := CleanAndSettle(d, n, passed, env);
    }

    method CleanAndSettle(d: Digest, n: nat, passed: bool, env: Env) returns (r: Reply)
      requires Valid() && journal == Some(Certifying(d))
      requires passed ==> |log| >= 2 && log[|log| - 2..] == [Started(d, n), Passed(d, n)]
      modifies this`journal, this`log
      ensures Valid()
      ensures r == if env.cut == 6 then Died else if passed && env.cleans then Certified else Refused
      ensures journal == if env.cut == 6 then Some(Certifying(d))
                         else if passed && env.cleans then Some(Complete(d)) else Some(Failed)
      ensures log == old(log) + When(env.cleans, Cleaned(n)) + When(r.Certified?, Completed(d, n))
    {
      if env.cleans { Note(Cleaned(n)); }
      if env.cut == 6 { return Died; }
      if passed && env.cleans { CompletionAllowed(old(log), d, n); }
      r := Settle(d, n, passed && env.cleans);
    }

    method Settle(d: Digest, n: nat, good: bool) returns (r: Reply)
      requires Valid() && journal == Some(Certifying(d)) && (good ==> Allowed(log, Completed(d, n)))
      modifies this`journal, this`log
      ensures Valid() && r == if good then Certified else Refused
      ensures journal == if good then Some(Complete(d)) else Some(Failed)
      ensures log == old(log) + if good then [Completed(d, n)] else []
    {
      if good {
        Accept(d, n);
        r := Certified;
      } else {
        journal := Some(Failed);
        r := Refused;
      }
    }

    /** The verdict and its entry in the log. */
    method Accept(d: Digest, n: nat)
      requires Valid() && journal == Some(Certifying(d)) && Allowed(log, Completed(d, n))
      modifies this`journal, this`log
      ensures Valid() && journal == Some(Complete(d)) && log == old(log) + [Completed(d, n)]
    {
      ObeyedNext(Allowed, log, Completed(d, n));
      log, journal := log + [Completed(d, n)], Some(Complete(d));
      assert log[|log| - 1] == Completed(d, n);
    }

    method Note(e: Event)
      requires Valid() && journal.Some? && !journal.value.Prepared? && !journal.value.Preparing?
      requires !journal.value.Complete?
      requires !e.Completed? && Allowed(log, e)
      modifies this`log
      ensures Valid() && log == old(log) + [e]
    {
      ObeyedNext(Allowed, log, e);
      log := log + [e];
    }

    /** `execute`. */
    method Execute(mode: Mode, env: Env) returns (r: Reply)
      requires Valid()
      modifies this
      ensures Valid() && old(log) <= log && invocations == old(invocations) + 1
      ensures (Now(), r) == Executed(old(Now()), old(invocations), mode, env)
    {
      var n := invocations;
      invocations := invocations + 1;
      if mode.CleanupOnly? { return if env.cleans then CleanupReply else Refused; }
      if mode.Normal? && !env.openBefore { return Deferred; }
      if journal.Some? {
        if !journal.value.Prepared? && !journal.value.Complete? { return Refused; }
        if candidate != Some(journal.value.candidate) { return Refused; }
        if journal.value.Complete? { return AlreadyCertified; }
      } else {
        var ok;
        ok, r := Prepare(env);
        if !ok { return; }
      }
      if mode.PrepareOnly? { return PreparedReply; }
      if !env.openAfter { return Deferred; }
      r := Certify(n, env);
    }
  }

  datatype Step = Step(before: Option<Option<Digest>>, mode: Mode, env: Env)

  /** Somebody may have touched the candidate before an invocation. */
  function Touched(s: State, step: Step): State {
    if step.before.Some? then s.(candidate := step.before.value) else s
  }

  function Ran(found: Option<Digest>, steps: seq<Step>): State {
    if steps == [] then State(None, found, [])
    else
      var n := |steps| - 1;
      Executed(Touched(Ran(found, steps[..n]), steps[n]), n, steps[n].mode, steps[n].env).0
  }

  /** Any invocations with any interference in between. */
  method Run(found: Option<Digest>, steps: seq<Step>) returns (journal: Option<Journal>, log: seq<Event>)
    ensures Lawful(log) && Agrees(journal, log) && InWindows(steps, log)
    ensures journal == Ran(found, steps).journal && log == Ran(found, steps).log
  {
    var s := new Schedule(found);
    for i := 0 to |steps|
      invariant s.Valid() && fresh(s) && s.invocations == i && s.Now() == Ran(found, steps[..i])
    {
      assert steps[..i + 1][..i] == steps[..i];
      if steps[i].before.Some? { s.Interfere(steps[i].before.value); }
      var _ := s.Execute(steps[i].mode, steps[i].env);
    }
    assert steps[..|steps|] == steps;
    journal, log := s.journal, s.log;
    RanInWindows(found, steps);
  }

  /** Every start belongs to a normal invocation whose window was open, twice. */
  ghost predicate InWindows(steps: seq<Step>, log: seq<Event>) {
    forall i :: 0 <= i < |log| && log[i].Started? ==> InWindow(steps, log[i].invocation)
  }

  predicate InWindow(steps: seq<Step>, n: nat) {
    n < |steps| && steps[n].mode.Normal? && steps[n].env.openBefore && steps[n].env.openAfter
  }

  lemma {:induction false} RanInWindows(found: Option<Digest>, steps: seq<Step>)
    ensures InWindows(steps, Ran(found, steps).log)
  {
    if steps != [] {
      var n := |steps| - 1;
      RanInWindows(found, steps[..n]);
      var before := Touched(Ran(found, steps[..n]), steps[n]);
      var after := Ran(found, steps);
      ExecutedAdds(before, n, steps[n].mode, steps[n].env);
      forall i | 0 <= i < |after.log| && after.log[i].Started? ensures InWindow(steps, after.log[i].invocation) {
        if i >= |before.log| {
          StartsInWindow(before, n, steps[n].mode, steps[n].env);
        } else {
          assert after.log[i] == before.log[i] && InWindow(steps[..n], before.log[i].invocation);
        }
      }
    }
  }

  lemma ExecutedAdds(s: State, n: nat, mode: Mode, env: Env)
    ensures var after := Executed(s, n, mode, env).0.log;
      && s.log <= after
      && forall i :: |s.log| <= i < |after| && after[i].Started? ==> after[i].invocation == n
  {
    var (p, stop) := Stopped(s, mode, env);
    assert p.log == s.log || (p.log == s.log + [p.log[|s.log|]] && p.log[|s.log|].Froze?);
  }

  lemma StartsOnce(log: seq<Event>, i: nat, j: nat)
    requires Lawful(log) && i < j < |log|
    ensures !(log[i].Started? && log[j].Started?)
  {
    ObeyedAt(Allowed, log, j);
    assert log[..j][i] == log[i];
  }

  /** What is certified is what was frozen. */
  lemma CertifiesTheFrozen(log: seq<Event>, i: nat)
    requires Lawful(log) && i < |log| && log[i].Completed?
    ensures i >= 3 && log[i - 3] == Started(log[i].candidate, log[i].invocation)
    ensures Froze(log[i].candidate) in log[..i - 3]
  {
    ObeyedAt(Allowed, log, i);
    assert log[..i][i - 3..][0] == log[i - 3];
    ObeyedAt(Allowed, log, i - 3);
  }
}
