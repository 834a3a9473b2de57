/** Runs of the release controller against a host that reboots twice: which of them leave a revoked
    key on the host, and exactly when that can happen. */
module RevokedKeys {
  import opened Options
  import opened Phases
  import opened Controller

  /* ---------- what smooth runs meet ---------- */

  /** A step or request that gets as far as it can; a rollback gets as far as `d`. */
  function Full(d: Depth): Outcome {
    Outcome(Effect(false, 3, false, d), false)
  }

  /** The same, the host having rebooted before. */
  function Rebooted(d: Depth): Outcome {
    Outcome(Effect(true, 3, false, d), false)
  }

  /** A request whose answer is lost. */
  function Lost(d: Depth): Outcome {
    Outcome(Effect(false, 0, false, d), true)
  }

  function Times(n: nat, d: Depth): seq<Outcome> {
    seq(n, _ => Full(d))
  }

  /** One turn of the polling loop: the deadline, the request, the state file. */
  function Turn(go: Outcome, d: Depth): seq<Outcome> {
    [Full(d), go, Full(d)]
  }

  /** The turns from a phase to `closed`: the host reboots twice, and the first time a request is lost
      while it does. */
  function Turns(p: Phase, d: Depth): seq<Outcome>
    decreases 10 - Rank(p), p.CredentialReady?
    requires Rank(p) <= 10
  {
    match p
    case CredentialReady => Turn(Full(d), d) + ([Full(d), Lost(d)] + Turns(RebootPending, d))
    case RebootPending => Turn(Rebooted(d), d) + Turns(PersistenceReboot, d)
    case RuntimePending => Turn(Full(d), d) + Turns(PersistenceReboot, d)
    case RuntimeInstalled => Turn(Full(d), d) + Turns(PersistenceReboot, d)
    case PersistenceReboot => Turn(Rebooted(d), d)
    case _ => []
  }

  /** The phases from which a host can be brought to `closed`. */
  predicate Resumable(p: Phase) {
    4 <= Rank(p) <= 9 && !p.PackageStaging?
  }

  lemma Ticks(s: State, d: Depth, rest: seq<Outcome>)
    requires s.outcomes == [Full(d)] + rest
    ensures Stepped(s) == (s.(outcomes := rest), Ok(New))
  {
    assert s.outcomes[1..] == rest;
  }

  lemma Asks(s: State, a: Action, o: Outcome, rest: seq<Outcome>)
    requires s.outcomes == [o] + rest
    ensures var t := s.(outcomes := rest, host := Serve(s.host, a, o.effect));
      Asked(s, a) == if o.lost || !Completes(s.host, a, o.effect) then (t, Failed)
                     else (t.(log := t.log + [Reported(t.host.phase)]), Ok(t.host.phase))
  {
    assert s.outcomes[1..] == rest;
  }

  lemma TimesNext(n: nat, d: Depth, rest: seq<Outcome>)
    requires n > 0
    ensures Times(n, d) + rest == [Full(d)] + (Times(n - 1, d) + rest)
  {
  }

  /** What a turn leaves when its request is answered. */
  function Turned(s: State, go: Outcome, rest: seq<Outcome>): State {
    var h := Serve(s.host, Go, go.effect);
    s.(outcomes := rest, host := h, stage := Some(h.phase), log := s.log + [Reported(h.phase)])
  }

  lemma TakesTurn(s: State, go: Outcome, d: Depth, rest: seq<Outcome>)
    requires s.outcomes == Turn(go, d) + rest && !go.lost && Completes(s.host, Go, go.effect)
    ensures var t := Turned(s, go, rest);
      Polled(s) == if t.host.phase.Closed? then FinishedBy(t) else if Waiting(t.stage) then Polled(t) else (t, Failed)
  {
    assert s.outcomes == [Full(d)] + ([go] + ([Full(d)] + rest));
    Ticks(s, d, [go] + ([Full(d)] + rest));
    var (t, _) := Stepped(s);
    Asks(t, Go, go, [Full(d)] + rest);
    var (u, q) := Asked(t, Go);
    Ticks(u, d, rest);
    assert Noted(u, q.phase) == (Turned(s, go, rest), Ok(q.phase));
  }

  /** A lost request is waited for while a reboot is pending, and fails otherwise. */
  lemma LosesTurn(s: State, d: Depth, rest: seq<Outcome>)
    requires s.outcomes == [Full(d), Lost(d)] + rest
    ensures var t := s.(outcomes := rest);
      Polled(s) == if Waiting(s.stage) then Polled(t) else (t, Failed)
  {
    assert s.outcomes == [Full(d)] + ([Lost(d)] + rest);
    Ticks(s, d, [Lost(d)] + rest);
    var (t, _) := Stepped(s);
    Asks(t, Go, Lost(d), rest);
    assert Serve(t.host, Go, Lost(d).effect) == t.host;
  }

  lemma Finishes(s: State, d: Depth)
    requires s.outcomes == Times(3, d) && s.previous.Some? && s.previous != s.lease
    ensures FinishedBy(s) ==
      (s.(outcomes := [], previous := None, log := s.log + [Revoking(s.previous.value)]), Ok(New))
  {
    assert s.outcomes == [Full(d)] + ([Full(d)] + ([Full(d)] + []));
    Ticks(s, d, [Full(d)] + ([Full(d)] + []));
    var (t, _) := Revoked(s, s.previous.value);
    Ticks(t, d, [Full(d)] + []);
    var (u, _) := Stepped(t);
    Ticks(u.(previous := None), d, []);
  }

  /* ---------- the host's side of a turn ---------- */

  /** Where a full request stops. */
  function Stop(h: Target): Target {
    if h.phase.CredentialReady? then h.(phase := RebootPending, waiting := true)
    else if h.phase.PersistenceReboot? then h.(phase := Closed, closed := true)
    else h.(phase := PersistenceReboot, waiting := true)
  }

  lemma AdvancesOnce(h: Target)
    ensures Advance(h, 1) == Forward(h)
  {
    assert Advance(h, 1) == Advance(Forward(h), 0);
  }

  lemma AdvancesTwice(h: Target)
    ensures Advance(h, 2) == Forward(Forward(h))
  {
    AdvancesOnce(Forward(h));
    assert Advance(h, 2) == Advance(Forward(h), 1);
  }

  lemma Stops(h: Target)
    requires !h.waiting && Resumable(h.phase)
    ensures Advanced(h, 3) == Stop(h)
  {
    assert Advanced(h, 3) == Advance(h, Cap(h));
    match h.phase
    case CredentialReady => AdvancesTwice(h);
    case RebootPending =>
      AdvancesTwice(Forward(h));
      assert Advance(h, 3) == Advance(Forward(h), 2);
    case RuntimePending => AdvancesTwice(h);
    case _ => AdvancesOnce(h);
  }

  /** A full request takes the host to its next stop. */
  lemma ReachesStop(h: Target, d: Depth)
    requires !h.waiting && Resumable(h.phase)
    ensures Completes(h, Go, Full(d).effect) && Serve(h, Go, Full(d).effect) == Stop(h)
  {
    Stops(h);
  }

  /** So does a full request after a reboot. */
  lemma RebootReaches(h: Target, d: Depth)
    requires Resumable(h.phase)
    ensures Completes(h, Go, Rebooted(d).effect)
    ensures Serve(h, Go, Rebooted(d).effect) == Serve(h.(waiting := false), Go, Full(d).effect)
  {
    ReachesStop(h.(waiting := false), d);
    assert Booted(h, Rebooted(d).effect) == h.(waiting := false);
    assert Booted(h.(waiting := false), Full(d).effect) == h.(waiting := false);
  }

  predicate Waits(h: Target) {
    h.waiting ==> h.phase.RebootPending? || h.phase.PersistenceReboot?
  }

  /** `s` ends in `closed` with the key that is there, and its previous lease is given up. */
  ghost predicate EndsClosed(s: State) {
    var (t, r) := Polled(s);
    && r.Ok? && t.host == s.host.(phase := Closed, closed := true, waiting := false) && t.lease == s.lease
    && s.previous.Some? && Revoking(s.previous.value) in t.log && t.previous.None?
  }

  lemma PersistenceCloses(s: State, d: Depth)
    requires s.host.phase.PersistenceReboot? && s.outcomes == Turns(PersistenceReboot, d) + Times(3, d)
    requires s.previous.Some? && s.previous != s.lease
    ensures EndsClosed(s)
  {
    ReachesStop(s.host.(waiting := false), d);
    RebootReaches(s.host, d);
    TakesTurn(s, Rebooted(d), d, Times(3, d));
    Finishes(Turned(s, Rebooted(d), Times(3, d)), d);
  }

  lemma RuntimeCloses(s: State, d: Depth)
    requires 6 <= Rank(s.host.phase) <= 8 && Waits(s.host) && s.outcomes == Turns(s.host.phase, d) + Times(3, d)
    requires s.previous.Some? && s.previous != s.lease
    ensures EndsClosed(s)
  {
    var go := if s.host.phase.RebootPending? then Rebooted(d) else Full(d);
    var more := Turns(PersistenceReboot, d) + Times(3, d);
    assert s.outcomes == Turn(go, d) + more;
    ReachesStop(s.host.(waiting := false), d);
    RebootReaches(s.host, d);
    TakesTurn(s, go, d, more);
    PersistenceCloses(Turned(s, go, more), d);
  }

  lemma CredentialCloses(s: State, d: Depth)
    requires s.host.phase.CredentialReady? && Waits(s.host) && s.outcomes == Turns(CredentialReady, d) + Times(3, d)
    requires s.previous.Some? && s.previous != s.lease
    ensures EndsClosed(s)
  {
    var more := Turns(RebootPending, d) + Times(3, d);
    var rest := [Full(d), Lost(d)] + more;
    assert s.outcomes == Turn(Full(d), d) + rest;
    ReachesStop(s.host, d);
    TakesTurn(s, Full(d), d, rest);
    var t := Turned(s, Full(d), rest);
    LosesTurn(t, d, more);
    RuntimeCloses(t.(outcomes := more), d);
  }

  /** From any resumable phase the turns end in `closed`. */
  lemma Closes(s: State, d: Depth)
    requires Resumable(s.host.phase) && Waits(s.host) && s.outcomes == Turns(s.host.phase, d) + Times(3, d)
    requires s.previous.Some? && s.previous != s.lease
    ensures EndsClosed(s)
  {
    match s.host.phase
    case CredentialReady => CredentialCloses(s, d);
    case PersistenceReboot => PersistenceCloses(s, d);
    case _ => RuntimeCloses(s, d);
  }

  /** Snapshot, backup, acknowledgement, `issue`, credential. */
  lemma Prepares(s: State, issued: Lease, d: Depth, rest: seq<Outcome>)
    requires s.host.phase.New? && !s.host.captured && s.lease.None? && s.outcomes == Times(5, d) + rest
    ensures PreparedBy(s, issued, New).1.Ok?
    ensures var t := PreparedBy(s, issued, New).0;
      && t.outcomes == rest && t.lease == Some(issued) && t.previous == s.previous && t.stage == s.stage
      && t.host == s.host.(phase := CredentialReady, captured := true, original := s.host.key, torn := false,
                           key := Of(issued))
  {
    TimesNext(5, d, rest);
    Asks(s, Snapshot, Full(d), Times(4, d) + rest);
    var (t1, _) := Asked(s, Snapshot);
    TimesNext(4, d, rest);
    Ticks(t1, d, Times(3, d) + rest);
    var (t2, _) := Stepped(t1);
    TimesNext(3, d, rest);
    Asks(t2, Acknowledge, Full(d), Times(2, d) + rest);
    var (t3, _) := Asked(t2, Acknowledge);
    DeliversKey(t3, issued, d, rest);
  }

  lemma DeliversKey(s: State, issued: Lease, d: Depth, rest: seq<Outcome>)
    requires s.host.phase.BackupVerified? && s.lease.None? && s.outcomes == Times(2, d) + rest
    ensures Delivered(s, issued).1.Ok?
    ensures var t := Delivered(s, issued).0;
      && t.outcomes == rest && t.lease == Some(issued) && t.previous == s.previous && t.stage == s.stage
      && t.host == s.host.(phase := CredentialReady, key := Of(issued), torn := false)
  {
    TimesNext(2, d, rest);
    Ticks(s.(lease := Some(issued)), d, Times(1, d) + rest);
    TimesNext(1, d, rest);
    assert Times(0, d) + rest == rest;
    Asks(s.(lease := Some(issued), outcomes := Times(1, d) + rest), Credential(issued), Full(d), rest);
  }

  /** What a deployment from `new` meets when nothing but one request fails. */
  function Smooth(d: Depth): seq<Outcome> {
    Times(6, d) + (Turns(CredentialReady, d) + Times(3, d))
  }

  lemma SmoothDeploy(s: State, issued: Lease, d: Depth)
    requires s.host.phase.New? && !s.host.captured && !s.host.waiting && s.lease.None? && s.outcomes == Smooth(d)
    requires s.previous.Some? && s.previous != Some(issued)
    ensures var (t, r) := Converged(s, issued, Deploy);
      && r.Ok? && Revoking(s.previous.value) in t.log && t.lease == Some(issued)
      && t.host == s.host.(phase := Closed, captured := true, closed := true, original := s.host.key, torn := false,
                           key := Of(issued))
  {
    var rest := Turns(CredentialReady, d) + Times(3, d);
    TimesNext(6, d, rest);
    Asks(s, Bound, Full(d), Times(5, d) + rest);
    var (t, _) := Asked(s, Bound);
    Prepares(t, issued, d, rest);
    var u := PreparedBy(t, issued, New).0;
    Closes(u, d);
    assert Converged(s, issued, Deploy) == Polled(u);
  }

  /** What a deployment resumed in phase `p` meets. */
  function Resuming(p: Phase, d: Depth): seq<Outcome>
    requires Rank(p) <= 10
  {
    [Full(d)] + (Turns(p, d) + Times(3, d))
  }

  lemma SmoothResume(s: State, issued: Lease, d: Depth)
    requires Resumable(s.host.phase) && Waits(s.host) && s.outcomes == Resuming(s.host.phase, d)
    requires s.previous.Some? && s.previous != s.lease
    ensures var (t, r) := Converged(s, issued, Deploy);
      && r.Ok? && t.host == s.host.(phase := Closed, closed := true, waiting := false)
      && Revoking(s.previous.value) in t.log
  {
    Asks(s, Bound, Full(d), Turns(s.host.phase, d) + Times(3, d));
    var (t, _) := Asked(s, Bound);
    Closes(t, d);
    assert Converged(s, issued, Deploy) == Polled(t);
  }

  /* ---------- the two ways a revoked key stays on the host ---------- */

  /** A deployment fails once its credential is delivered; the rollback of its failure path dies
      after the first file. The next deployment succeeds. */
  function TornScript(): seq<Invocation> {
    [Invocation(Deploy, Failing(KeyOnly)), Invocation(Deploy, Resuming(CredentialReady, KeyOnly))]
  }

  function Failing(d: Depth): seq<Outcome> {
    Times(6, d) + ([Full(d), Lost(d)] + Times(2, d))
  }

  lemma FailedDeploy(s: State, issued: Lease, d: Depth)
    requires s.host.phase.New? && !s.host.captured && s.lease.None? && s.stage.None? && s.outcomes == Failing(d)
    ensures var (t, r) := Converged(s, issued, Deploy);
      && r.Failed? && t.outcomes == Times(2, d) && t.lease == Some(issued) && t.previous == s.previous
      && t.host == s.host.(phase := CredentialReady, captured := true, original := s.host.key, torn := false,
                           key := Of(issued))
  {
    var rest := [Full(d), Lost(d)] + Times(2, d);
    TimesNext(6, d, rest);
    Asks(s, Bound, Full(d), Times(5, d) + rest);
    var (t, _) := Asked(s, Bound);
    Prepares(t, issued, d, rest);
    var u := PreparedBy(t, issued, New).0;
    LosesTurn(u, d, Times(2, d));
    assert Converged(s, issued, Deploy) == Polled(u);
  }

  /** The failure path asks where the host is and rolls it back; that rollback dies. */
  lemma TornRecovery(s: State)
    requires s.host.phase.CredentialReady? && s.outcomes == Times(2, KeyOnly)
    ensures var t := Recovered(s);
      t.host == RollBack(s.host, KeyOnly) && t.previous == s.previous && t.lease == s.lease
  {
    var d := KeyOnly;
    assert s.outcomes == [Full(d)] + ([Full(d)] + []);
    Asks(s, Bound, Full(d), [Full(d)] + []);
    var (t, _) := Asked(s, Bound);
    Asks(t, Rollback, Full(d), []);
  }

  /** The first invocation leaves a deployable release with the old key. */
  lemma TornFirst(p: Lease, issued: Lease)
    requires p != issued
    ensures var t := Invoked(Begun(Some(p), Of(p)), issued, TornScript()[0]);
      && t.host.phase.CredentialReady? && t.host.key == Of(p) && !t.host.waiting
      && t.previous == Some(p) && t.lease == Some(issued)
  {
    var first := Begun(Some(p), Of(p)).(outcomes := Failing(KeyOnly));
    FailedDeploy(first, issued, KeyOnly);
    TornRecovery(Converged(first, issued, Deploy).0);
  }

  lemma TornHolds(p: Lease, issued: Lease)
    requires p != issued
    ensures Holds(After(Begun(Some(p), Of(p)), issued, TornScript()))
  {
    var s, script := Begun(Some(p), Of(p)), TornScript();
    TornFirst(p, issued);
    var torn := Invoked(s, issued, script[0]);
    SmoothResume(torn.(outcomes := script[1].outcomes), issued, KeyOnly);
    AfterTwo(s, issued, script[0], script[1]);
    assert script == [script[0], script[1]];
  }

  lemma AfterNext(s: State, issued: Lease, before: seq<Invocation>, v: Invocation)
    ensures After(s, issued, before + [v]) == Invoked(After(s, issued, before), issued, v)
  {
    assert (before + [v])[..|before|] == before;
  }

  lemma AfterTwo(s: State, issued: Lease, v: Invocation, w: Invocation)
    ensures After(s, issued, [v, w]) == Invoked(Invoked(s, issued, v), issued, w)
  {
    AfterNext(s, issued, [], v);
    AfterNext(s, issued, [v], w);
    assert [] + [v] == [v] && [v] + [w] == [v, w];
  }

  /** A smooth deployment and two rollbacks. */
  function LateScript(d: Depth): seq<Invocation> {
    var back := Invocation(RollbackCommand, Times(3, d));
    [Invocation(Deploy, Smooth(d)), back, back]
  }

  lemma RollbackInvoked(s: State, issued: Lease, d: Depth)
    requires s.host.captured && d.Finished?
    ensures var t := Invoked(s, issued, Invocation(RollbackCommand, Times(3, d)));
      t.host == RollBack(s.host, d) && t.lease == s.lease && forall e :: e in s.log ==> e in t.log
  {
    var u := s.(outcomes := Times(3, d));
    assert u.outcomes == [Full(d)] + ([Full(d)] + ([Full(d)] + []));
    Asks(u, Bound, Full(d), [Full(d)] + ([Full(d)] + []));
    var (t, _) := Asked(u, Bound);
    Asks(t, Rollback, Full(d), [Full(d)] + []);
    Ticks(Asked(t, Rollback).0, d, []);
  }

  lemma LateHolds(p: Lease, issued: Lease, d: Depth)
    requires p != issued && d.Finished?
    ensures Holds(After(Begun(Some(p), Of(p)), issued, LateScript(d)))
  {
    var s, script := Begun(Some(p), Of(p)), LateScript(d);
    SmoothDeploy(s.(outcomes := Smooth(d)), issued, d);
    var closed := Invoked(s, issued, script[0]);
    RollbackInvoked(closed, issued, d);
    var once := Invoked(closed, issued, script[1]);
    RollbackInvoked(once, issued, d);
    AfterTwo(s, issued, script[0], script[1]);
    AfterNext(s, issued, [script[0], script[1]], script[2]);
    assert script == [script[0], script[1]] + [script[2]];
  }

  /** Which environments are safe: no run whatever leaves a revoked key on the host if and only if no
      rollback dies between the key and the journal and, where an operator may roll back, none has
      any effect at all. */
  lemma SafeExactly(p: Lease, issued: Lease, depths: set<Depth>, operator: bool)
    requires p != issued
    ensures (forall invocations: seq<Invocation> ::
               Within(invocations, Setting(Some(p), issued, Of(p), depths, operator, false)) ==>
                 !Holds(After(Begun(Some(p), Of(p)), issued, invocations)))
        <==> KeyOnly !in depths && (operator ==> depths <= {Untouched})
  {
    var c := Setting(Some(p), issued, Of(p), depths, operator, false);
    var s := Begun(Some(p), Of(p));
    if KeyOnly in depths {
      TornHolds(p, issued);
      TornWithin(c);
    } else if operator && !(depths <= {Untouched}) {
      var d :| d in depths && d != Untouched;
      LateHolds(p, issued, d);
      LateWithin(d, c);
    } else {
      forall invocations: seq<Invocation> | Within(invocations, c) ensures !Holds(After(s, issued, invocations)) {
        AfterKeeps(s, invocations, c);
        HeldIsOld(After(s, issued, invocations), c);
      }
    }
  }

  predicate AllOf(os: seq<Outcome>, d: Depth) {
    forall o :: o in os ==> o.effect.depth == d
  }

  lemma TurnsAllOf(p: Phase, d: Depth)
    requires Rank(p) <= 10
    ensures AllOf(Turns(p, d), d)
    decreases 10 - Rank(p)
  {
    if p.CredentialReady? {
      TurnsAllOf(RebootPending, d);
    } else if 6 <= Rank(p) <= 8 {
      TurnsAllOf(PersistenceReboot, d);
    }
  }

  lemma TornWithin(c: Setting)
    requires KeyOnly in c.depths
    ensures Within(TornScript(), c)
  {
    TurnsAllOf(CredentialReady, KeyOnly);
    assert AllOf(Failing(KeyOnly), KeyOnly) && AllOf(Resuming(CredentialReady, KeyOnly), KeyOnly);
  }

  lemma LateWithin(d: Depth, c: Setting)
    requires d in c.depths && c.operator
    ensures Within(LateScript(d), c)
  {
    TurnsAllOf(CredentialReady, d);
    assert AllOf(Smooth(d), d) && AllOf(Times(3, d), d);
  }

  /** At the step itself: before a release has closed, a rollback of a delivered credential leads to
      a revoked key on the host, if the deployment then goes on smoothly, exactly when it dies after
      its first file. */
  lemma TornExactly(s: State, c: Setting, d: Depth)
    requires Inv(s, c) && Resumable(s.host.phase) && !s.host.torn && !s.host.closed
    requires c.key.Of? && s.previous == c.previous == Some(c.key.lease)
    ensures var next := Invocation(Deploy, Resuming(s.host.phase, Untouched));
      Holds(Invoked(s.(host := RollBack(s.host, d)), c.issued, next)) <==> d.KeyOnly?
  {
    var os := Resuming(s.host.phase, Untouched);
    var t := s.(host := RollBack(s.host, d), outcomes := os);
    if d.KeyOnly? {
      SmoothResume(t, c.issued, Untouched);
    } else {
      var calm := c.(depths := {Untouched, d}, operator := false, stuck := false);
      RollBackKeeps(s.host, d, calm);
      TurnsAllOf(s.host.phase, Untouched);
      assert AllOf(os, Untouched);
      ConvergedKeeps(t, Deploy, calm);
      RecoveredKeeps(Converged(t, c.issued, Deploy).0, calm);
      HeldIsOld(Invoked(s.(host := RollBack(s.host, d)), c.issued, Invocation(Deploy, os)), calm);
    }
  }

  /** In the one phase left out above nothing leads there: an interrupted `package-staging` is never
      closed, whatever rollbacks and invocations follow. */
  lemma StagingNeverHolds(s: State, c: Setting, invocations: seq<Invocation>)
    requires Inv(s, c.(stuck := false)) && s.host.phase.PackageStaging? && Within(invocations, c)
    ensures !Holds(After(s, c.issued, invocations)) && !After(s, c.issued, invocations).host.closed
  {
    var stuck := c.(stuck := true);
    AfterKeeps(s, invocations, stuck);
    HeldIsOld(After(s, c.issued, invocations), stuck);
  }

  /** At the step itself: once a release has closed, been rolled back and lost its previous lease, a
      further rollback puts a revoked key on the host exactly when it has any effect. */
  lemma LateExactly(s: State, c: Setting, d: Depth)
    requires Inv(s, c) && s.host.closed && Rank(s.host.phase) == 11 && !s.host.late && !s.host.torn
    requires c.key.Of? && Revoking(c.key.lease) in s.log
    ensures Holds(s.(host := RollBack(s.host, d))) <==> !d.Untouched?
  {
    HeldIsOld(s, c);
  }

  /** One rollback command is enough when its answer is lost after its effect: the failure path asks
      for a second rollback, and then also gives up the new lease. */
  function LostAnswerScript(): seq<Invocation> {
    var d := Finished(true);
    [Invocation(Deploy, Smooth(d)), Invocation(RollbackCommand, [Full(d), Lost(d)] + Times(4, d))]
  }

  lemma LostAnswerHolds(p: Lease, issued: Lease)
    requires p != issued
    ensures var s := After(Begun(Some(p), Of(p)), issued, LostAnswerScript());
      Holds(s) && Revoking(issued) in s.log
  {
    var s, script, d := Begun(Some(p), Of(p)), LostAnswerScript(), Finished(true);
    SmoothDeploy(s.(outcomes := Smooth(d)), issued, d);
    var closed := Invoked(s, issued, script[0]);
    LostAnswer(closed.(outcomes := script[1].outcomes), issued);
    AfterTwo(s, issued, script[0], script[1]);
    assert script == [script[0], script[1]];
  }

  lemma LostAnswer(s: State, issued: Lease)
    requires s.host.captured && s.host.phase.Closed? && s.host.closed && s.lease == Some(issued)
    requires s.outcomes == LostAnswerScript()[1].outcomes
    ensures var t := Invoked(s, issued, LostAnswerScript()[1]);
      t.host.key == s.host.original && Revoking(issued) in t.log && forall e :: e in s.log ==> e in t.log
  {
    var d := Finished(true);
    assert s.outcomes == [Full(d)] + ([Lost(d)] + Times(4, d));
    Asks(s, Bound, Full(d), [Lost(d)] + Times(4, d));
    var (t, _) := Asked(s, Bound);
    Asks(t, Rollback, Lost(d), Times(4, d));
    var (u, _) := Asked(t, Rollback);
    assert Converged(s, issued, RollbackCommand) == (u, Failed);
    LostRecovery(u, issued);
  }

  lemma LostRecovery(s: State, issued: Lease)
    requires s.host.captured && s.host.phase.RolledBack? && s.lease == Some(issued)
    requires s.outcomes == Times(4, Finished(true))
    ensures var t := Recovered(s);
      t.host.key == s.host.original && Revoking(issued) in t.log && forall e :: e in s.log ==> e in t.log
  {
    var d := Finished(true);
    assert s.outcomes == [Full(d)] + ([Full(d)] + ([Full(d)] + ([Full(d)] + [])));
    Asks(s, Bound, Full(d), [Full(d)] + ([Full(d)] + ([Full(d)] + [])));
    var (t, _) := Asked(s, Bound);
    Asks(t, Rollback, Full(d), [Full(d)] + ([Full(d)] + []));
    var (u, _) := Asked(t, Rollback);
    Ticks(u, d, [Full(d)] + []);
  }

  /* ---------- concrete runs of the program ---------- */

  /** A deployment in which nothing fails but a request during the first reboot: it closes the release
      with the key of its own lease and gives up the previous one. */
  method SmoothRun(previous: Lease, issued: Lease, key: Key) returns (s: State)
    requires previous != issued && key != Of(issued)
    ensures s.host.phase.Closed? && s.host.key == Of(issued) && Revoking(previous) in s.log
  {
    var script := [Invocation(Deploy, Smooth(Untouched))];
    s := Run(Some(previous), issued, key, script);
    SmoothDeploy(Begun(Some(previous), key).(outcomes := Smooth(Untouched)), issued, Untouched);
    assert script[..0] == [];
  }

  /** A pair of deployments without any rollback command that ends closed with a revoked key. */
  method TornRun() returns (s: State)
    ensures Holds(s)
  {
    assert "old"[0] != "new"[0];
    s := Run(Some("old"), "new", Of("old"), TornScript());
    TornHolds("old", "new");
  }

  /** A run whose only rollback command leaves a revoked key, and revokes the other too. */
  method LostAnswerRun() returns (s: State)
    ensures Holds(s) && Revoking("new") in s.log
  {
    assert "old"[0] != "new"[0];
    s := Run(Some("old"), "new", Of("old"), LostAnswerScript());
    LostAnswerHolds("old", "new");
  }
}
