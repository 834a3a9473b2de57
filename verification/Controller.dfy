/** The release controller of `controller.py` against an enrolled host: which provider leases it
    revokes, when, and whose key is then left on the host. Every request may fail with or without
    its effect, and the controller may die between any two of its steps and be started again. */
module Controller {
  import opened Options
  import opened Histories
  import opened Phases

  type Lease = string

  /* ---------- the host, as far as keys are concerned ---------- */

  /** A key on the host: the one of a lease, or one no lease is known for. */
  datatype Key = Of(lease: Lease) | Unleased

  /** `original` is the key recorded before the release changed anything, `closed` that the release
      has been closed at some time. `torn`: before that, the key was last written by a rollback which
      then died without journaling its outcome. `late`: after that, a rollback wrote the key. `waiting`:
      the host waits for a reboot, being still in the boot in which it asked for it. */
  datatype Target = Target(phase: Phase, captured: bool, key: Key, original: Key, closed: bool, torn: bool, late: bool,
                           waiting: bool)

  /** How far a rollback gets. */
  datatype Depth = Untouched | KeyOnly | Finished(healthy: bool)

  /** `rollback`: the credential is the first recorded file (`HostFiles.Host.Rollback`), the journal is
      written last. */
  function RollBack(h: Target, depth: Depth): Target {
    if !h.captured || depth.Untouched? then h
    else
      var kept := h.phase.Closed?;
      var key := if kept then h.key else h.original;
      var late := h.late || (h.closed && !kept);
      match depth
      case KeyOnly => h.(key := key, torn := h.torn || !kept, late := late)
      case Finished(healthy) =>
        h.(key := key, torn := kept && h.torn, late := late, phase := if healthy then RolledBack else RecoveryRequired)
  }

  /** One journaled step of `advance`. */
  function Forward(h: Target): Target {
    match h.phase
    case CredentialReady => h.(phase := PackageStaging)
    case PackageStaging => h.(phase := RebootPending, waiting := true)
    case RebootPending => h.(phase := RuntimePending)
    case RuntimePending => h.(phase := RuntimeInstalled)
    case RuntimeInstalled => h.(phase := PersistenceReboot, waiting := true)
    case PersistenceReboot => h.(phase := Closed, closed := true)
    case _ => h
  }

  /** How many steps one `advance` takes at most: it stops where a reboot is needed, does not resume
      `package-staging`, and does nothing before a reboot it waits for. */
  function Cap(h: Target): nat {
    if h.phase.PackageStaging? then 0 else Room(h)
  }

  function Room(h: Target): nat {
    if h.waiting then 0
    else match h.phase
      case CredentialReady => 2
      case PackageStaging => 1
      case RebootPending => 3
      case RuntimePending => 2
      case RuntimeInstalled => 1
      case PersistenceReboot => 1
      case _ => 0
  }

  function Advance(h: Target, steps: nat): Target
    decreases steps
  {
    if steps == 0 then h else Advance(Forward(h), steps - 1)
  }

  function Advanced(h: Target, steps: nat): Target {
    Advance(h, if steps < Cap(h) then steps else Cap(h))
  }

  datatype Action = Bound | Snapshot | Acknowledge | Credential(lease: Lease) | Go | Rollback

  /** What a request does on the host: whether the host has rebooted before it, the journaled steps it
      takes, whether a runtime command fails in `advance`, and how far a rollback gets. */
  datatype Effect = Effect(rebooted: bool, steps: nat, fails: bool, depth: Depth)

  function Booted(h: Target, e: Effect): Target {
    if e.rebooted then h.(waiting := false) else h
  }

  function Serve(h: Target, a: Action, e: Effect): Target {
    Served(Booted(h, e), a, e)
  }

  function Served(h: Target, a: Action, e: Effect): Target {
    match a
    case Bound => h
    case Snapshot =>
      if !h.phase.New? || e.steps == 0 then h
      else
        var taken := h.(captured := true, original := if h.captured then h.original else h.key);
        if e.steps == 1 then taken else taken.(phase := if e.steps == 2 then SnapshotCreating else SnapshotReady)
    case Acknowledge =>
      if (h.phase.SnapshotReady? || h.phase.BackupVerified?) && e.steps > 0 then h.(phase := BackupVerified) else h
    case Credential(lease) =>
      if !(h.phase.BackupVerified? || h.phase.CredentialReady?) || e.steps == 0 then h
      else if e.steps == 1 then h.(key := Of(lease), torn := false)
      else h.(key := Of(lease), torn := false, phase := CredentialReady)
    case Go =>
      var g := Advanced(h, e.steps);
      if e.fails && 7 <= Rank(g.phase) <= 9 && !h.waiting then RollBack(g, e.depth) else g
    case Rollback => RollBack(h, e.depth)
  }

  /** The request runs to its end and reports success: `advance` does so at a stop, having reached it or
      waiting there, or closed. */
  predicate Completes(h: Target, a: Action, e: Effect) {
    var b := Booted(h, e);
    match a
    case Bound => true
    case Snapshot => !b.phase.New? || e.steps >= 3
    case Acknowledge => (b.phase.SnapshotReady? || b.phase.BackupVerified?) && e.steps > 0
    case Credential(_) => (b.phase.BackupVerified? || b.phase.CredentialReady?) && e.steps > 1
    case Go =>
      var p := Advanced(b, e.steps).phase;
      && !e.fails && (p.RebootPending? || p.PersistenceReboot? || p.Closed?)
      && (p != b.phase || b.waiting || p.Closed?)
    case Rollback => b.captured && e.depth.Finished?
  }

  /** What one request does to the phase is what the host's operations can do to it, and the other way
      round: `Deployment.Host` keeps to the same relations. */
  ghost predicate Leads(a: Action, p: Phase, q: Phase) {
    match a
    case Bound => q == p
    case Snapshot => SnapshotLeads(p, q)
    case Acknowledge => AcknowledgeLeads(p, q)
    case Credential(_) => CredentialLeads(p, q)
    case Go => AdvanceLeads(p, q)
    case Rollback => RollbackLeads(p, q)
  }

  lemma ServeLeads(h: Target, a: Action, q: Phase)
    requires h.captured
    ensures (exists e :: Serve(h, a, e).phase == q) <==> Leads(a, h.phase, q)
  {
    forall e ensures Leads(a, h.phase, Serve(h, a, e).phase) {
      if a.Go? { GoLeads(Booted(h, e), e.steps); }
    }
    if Leads(a, h.phase, q) { LeadingLeads(h, a, q); }
  }

  /** Within the cap every step leads one phase further. */
  lemma {:induction false} AdvanceRank(h: Target, steps: nat)
    requires 4 <= Rank(h.phase) && Rank(h.phase) + steps <= 10
    ensures Rank(Advance(h, steps).phase) == Rank(h.phase) + steps && Advance(h, steps).captured == h.captured
    decreases steps
  {
    if steps > 0 {
      ForwardRank(h);
      AdvanceRank(Forward(h), steps - 1);
    }
  }

  lemma ForwardRank(h: Target)
    requires 4 <= Rank(h.phase) <= 9
    ensures Rank(Forward(h).phase) == Rank(h.phase) + 1 && Forward(h).captured == h.captured
  {
  }

  lemma SamePhase(p: Phase, q: Phase)
    requires Rank(p) == Rank(q) <= 10
    ensures p == q
  {
  }

  lemma GoLeads(h: Target, steps: nat)
    ensures var q := Advanced(h, steps).phase;
      AdvanceLeads(h.phase, q) && (Setback(q) ==> q == h.phase) && (7 <= Rank(q) <= 9 ==> 6 <= Rank(h.phase) <= 9)
  {
    var k := if steps < Cap(h) then steps else Cap(h);
    if k > 0 { AdvanceRank(h, k); }
  }

  /** The effect that makes a request lead from one phase to another. */
  function Leading(a: Action, p: Phase, q: Phase): Effect {
    if q == p then Effect(false, 0, false, Untouched)
    else if Setback(q) then Effect(true, if p.RebootPending? then 1 else 0, true, Finished(q.RolledBack?))
    else match a
      case Snapshot => Effect(false, if q.SnapshotCreating? then 2 else 3, false, Untouched)
      case Acknowledge => Effect(false, 1, false, Untouched)
      case Credential(_) => Effect(false, 2, false, Untouched)
      case _ => Effect(true, if Rank(p) < Rank(q) then Rank(q) - Rank(p) else 0, false, Untouched)
  }

  lemma LeadingLeads(h: Target, a: Action, q: Phase)
    requires h.captured && Leads(a, h.phase, q)
    ensures Serve(h, a, Leading(a, h.phase, q)).phase == q
  {
    var e := Leading(a, h.phase, q);
    if a.Go? && q != h.phase {
      var b := h.(waiting := false);
      assert Booted(h, e) == b && e.steps <= Cap(b);
      assert Advanced(b, e.steps) == Advance(b, e.steps);
      AdvanceRank(b, e.steps);
      if !Setback(q) { SamePhase(Advance(b, e.steps).phase, q); }
    }
  }

  /* ---------- the controller as a function of what it meets ---------- */

  datatype Event = Reported(phase: Phase) | Revoking(lease: Lease)

  /** What one request or step of the controller meets: its effect on the host, and whether the
      answer is lost on the way back. */
  datatype Outcome = Outcome(effect: Effect, lost: bool)

  datatype Answer = Ok(phase: Phase) | Failed | Died
  datatype Command = Deploy | Upgrade | RollbackCommand

  /** The host, the state file (`lease`, `previous_lease`, `stage`), what is still to be met, and
      what has happened. */
  datatype State = State(host: Target, lease: Option<Lease>, previous: Option<Lease>, stage: Option<Phase>,
                         outcomes: seq<Outcome>, log: seq<Event>)

  predicate Recoverable(p: Phase) {
    p.New? || p.SnapshotCreating? || p.SnapshotReady? || p.BackupVerified? || p.CredentialReady? || p.RolledBack?
  }

  predicate Waiting(p: Option<Phase>) {
    p == Some(RebootPending) || p == Some(PersistenceReboot)
  }

  /** `request`; a controller whose outcomes are used up is dead. */
  function Asked(s: State, a: Action): (State, Answer) {
    if s.outcomes == [] then (s, Died)
    else
      var o := s.outcomes[0];
      var t := s.(outcomes := s.outcomes[1..], host := Serve(s.host, a, o.effect));
      if o.lost || !Completes(s.host, a, o.effect) then (t, Failed)
      else (t.(log := t.log + [Reported(t.host.phase)]), Ok(t.host.phase))
  }

  /** A step that touches neither the host nor a lease: backups, state files, `issue`, the deadline. */
  function Stepped(s: State): (State, Answer) {
    if s.outcomes == [] then (s, Died)
    else (s.(outcomes := s.outcomes[1..]), if s.outcomes[0].lost then Failed else Ok(New))
  }

  /** `revoke`: from the moment it is sent the lease may be gone. */
  function Revoked(s: State, l: Lease): (State, Answer) {
    var (t, r) := Stepped(s);
    if r.Died? then (t, r) else (t.(log := t.log + [Revoking(l)]), r)
  }

  /** `finish`: give up the previous lease, forget it in the state file, then retain backups. */
  function FinishedBy(s: State): (State, Answer) {
    if s.previous.Some? && s.previous != s.lease then
      var (t, r) := Revoked(s, s.previous.value);
      if !r.Ok? then (t, r) else
      var (u, q) := Stepped(t);
      if q.Ok? then Stepped(u.(previous := None)) else (u, q)
    else Stepped(s)
  }

  /** Write a reported stage to the state file. */
  function Noted(s: State, p: Phase): (State, Answer) {
    var (t, r) := Stepped(s);
    if r.Ok? then (t.(stage := Some(p)), Ok(p)) else (t, r)
  }

  /** The first half of `converge`: back up, then deliver the key of this release's lease. */
  function PreparedBy(s: State, issued: Lease, p: Phase): (State, Answer) {
    if p.New? || p.SnapshotReady? then
      var (t1, r1) := Asked(s, Snapshot);
      if !r1.Ok? then (t1, r1) else
      var (t2, r2) := Stepped(t1);
      if !r2.Ok? then (t2, r2) else
      var (t3, r3) := Asked(t2, Acknowledge);
      if !r3.Ok? then (t3, r3) else Delivered(t3, issued)
    else if p.BackupVerified? then Delivered(s, issued)
    else (s, Ok(p))
  }

  function Delivered(s: State, issued: Lease): (State, Answer) {
    var t := s.(lease := if s.lease.None? then Some(issued) else s.lease);
    var (u, r) := Stepped(t);
    if !r.Ok? then (u, r) else Asked(u, Credential(t.lease.value))
  }

  /** The polling loop of `converge`. */
  function Polled(s: State): (State, Answer)
    decreases |s.outcomes|
  {
    var (t, r) := Stepped(s);
    if !r.Ok? then (t, r) else
    var (u, q) := Asked(t, Go);
    if q.Died? || (q.Failed? && !Waiting(u.stage)) then (u, q)
    else if q.Failed? then Polled(u)
    else
      var (v, w) := Noted(u, q.phase);
      if !w.Ok? then (v, w)
      else if q.phase.Closed? then FinishedBy(v)
      else if !Waiting(v.stage) then (v, Failed)
      else Polled(v)
  }

  /** `converge`. */
  function Converged(s: State, issued: Lease, command: Command): (State, Answer) {
    var (t, r) := Asked(s, Bound);
    if !r.Ok? then (t, r)
    else if command.RollbackCommand? then
      var (u, q) := Asked(t, Rollback);
      if q.Ok? then Noted(u, q.phase) else (u, q)
    else if r.phase.Closed? then
      var (u, q) := Asked(t, Go);
      if q.Ok? then FinishedBy(u) else (u, q)
    else
      var (u, q) := PreparedBy(t, issued, r.phase);
      if q.Ok? then Polled(u) else (u, q)
  }

  /** The failure path of `main`. */
  function Recovered(s: State): State {
    var (t, r) := Asked(s, Bound);
    if !r.Ok? || !Recoverable(r.phase) then t else
    var (u, q) := Asked(t, Rollback);
    if q.Ok? then RecoveryNoted(u, q.phase) else u
  }

  /** After its rollback the failure path gives up the new lease and writes the state file. */
  function RecoveryNoted(s: State, p: Phase): State {
    if p.RolledBack? && s.lease.Some? then
      var (t, r) := Revoked(s, s.lease.value);
      if r.Ok? then Noted(t, p).0 else t
    else Noted(s, p).0
  }

  /** One invocation of the controller, and what it will meet. */
  datatype Invocation = Invocation(command: Command, outcomes: seq<Outcome>)

  function Invoked(s: State, issued: Lease, v: Invocation): State {
    var (t, r) := Converged(s.(outcomes := v.outcomes), issued, v.command);
    if r.Failed? then Recovered(t) else t
  }

  function Begun(previous: Option<Lease>, key: Key): State {
    State(Target(New, false, key, key, false, false, false, false), None, previous, None, [], [])
  }

  function After(s: State, issued: Lease, invocations: seq<Invocation>): State {
    if invocations == [] then s
    else Invoked(After(s, issued, invocations[..|invocations| - 1]), issued, invocations[|invocations| - 1])
  }

  /* ---------- what a step that fails leaves undone ---------- */

  /** The first `n` steps or requests are answered. */
  predicate Answered(s: State, n: nat) {
    |s.outcomes| >= n && forall i :: 0 <= i < n ==> !s.outcomes[i].lost
  }

  /** The previous lease is forgotten if and only if its revocation and the step that saves this are both
      answered; it is given up from the moment the revocation is sent. */
  lemma FinishedForgets(s: State)
    requires s.previous.Some? && s.previous != s.lease
    ensures var (t, r) := FinishedBy(s);
      && (t.previous.None? <==> Answered(s, 2)) && (t.previous.Some? ==> t.previous == s.previous)
      && t.log == s.log + (if s.outcomes == [] then [] else [Revoking(s.previous.value)])
      && (r.Ok? <==> Answered(s, 3)) && t.lease == s.lease && t.stage == s.stage && t.host == s.host
  {
  }

  /** A stage is saved if and only if the step is answered. */
  lemma NotedExactly(s: State, p: Phase)
    ensures var (t, r) := Noted(s, p);
      && (r == Ok(p) <==> Answered(s, 1)) && (r.Died? <==> s.outcomes == [])
      && t == s.(stage := if Answered(s, 1) then Some(p) else s.stage,
                 outcomes := if s.outcomes == [] then [] else s.outcomes[1..])
  {
  }

  /** The credential is delivered only after the backup has been acknowledged: from `new` all five steps
      must be answered, from `backup-verified` the last two, and a lease once chosen is kept. */
  lemma PreparedExactly(s: State, issued: Lease, p: Phase)
    ensures var (t, r) := PreparedBy(s, issued, p);
      && (r.Ok? && (p.New? || p.SnapshotReady?) ==> Answered(s, 5))
      && (r.Ok? && p.BackupVerified? ==> Answered(s, 2))
      && (!p.New? && !p.SnapshotReady? && !p.BackupVerified? ==> r == Ok(p) && t == s)
      && (t.lease == s.lease || (s.lease.None? && t.lease == Some(issued)))
      && (r.Ok? && (p.New? || p.SnapshotReady? || p.BackupVerified?) ==>
            t.lease.Some? && t.host.key == Of(t.lease.value) && t.host.phase.CredentialReady?)
      && t.previous == s.previous && t.stage == s.stage
  {
  }

  /** The failure path saves the stage only when the new lease, if the rollback gave it up, is gone. */
  lemma RecoveryNotedExactly(s: State, p: Phase)
    ensures var t := RecoveryNoted(s, p);
      t.stage == if Answered(s, if p.RolledBack? && s.lease.Some? then 2 else 1) then Some(p) else s.stage
  {
  }

  /** Whatever the command and the phase: an invocation goes no further than its first step that fails. */
  lemma FailedStepStops(s: State, issued: Lease, command: Command)
    requires |s.outcomes| >= 2 && !s.outcomes[0].lost && s.outcomes[1].lost && !Waiting(s.stage)
    requires s.lease.Some? && s.previous != s.lease
    ensures var (t, r) := Converged(s, issued, command);
      r.Failed? && t.outcomes == s.outcomes[2..] && t.stage == s.stage && t.previous == s.previous
  {
    assert s.outcomes[1..][0].lost && s.outcomes[1..][1..] == s.outcomes[2..];
    assert Completes(s.host, Bound, s.outcomes[0].effect);
  }

  /** A request can have each of its effects without the answer: a capture without its phase, a key
      without its phase. */
  lemma PartialEffects(h: Target, l: Lease)
    ensures h.phase.New? ==> exists e :: Serve(h, Snapshot, e).captured && Serve(h, Snapshot, e).phase.New?
    ensures h.phase.BackupVerified? ==>
      exists e :: Serve(h, Credential(l), e).key == Of(l) && Serve(h, Credential(l), e).phase.BackupVerified?
  {
    var e := Effect(false, 1, false, Untouched);
    assert h.phase.New? ==> Serve(h, Snapshot, e).captured && Serve(h, Snapshot, e).phase.New?;
    assert h.phase.BackupVerified? ==> Serve(h, Credential(l), e).key == Of(l);
  }

  /** An `advance` that reports success is at a stop, has neither failed nor rolled back, and has moved
      unless it waits for a reboot or the release is closed. */
  lemma SuccessIsAtStop(h: Target, e: Effect)
    requires Completes(h, Go, e)
    ensures var g := Serve(h, Go, e);
      && (g.phase.RebootPending? || g.phase.PersistenceReboot? || g.phase.Closed?) && !e.fails
      && (g.phase == h.phase ==> g.phase.Closed? || (h.waiting && !e.rebooted))
      && g.key == h.key
  {
    GoLeads(Booted(h, e), e.steps);
    KeyStays(Booted(h, e), if e.steps < Cap(Booted(h, e)) then e.steps else Cap(Booted(h, e)));
  }

  lemma {:induction false} KeyStays(h: Target, steps: nat)
    ensures Advance(h, steps).key == h.key
    decreases steps
  {
    if steps > 0 { KeyStays(Forward(h), steps - 1); }
  }

  /* ---------- the controller as the program runs it ---------- */

  class Controller {
    const issued: Lease
    var host: Target
    var lease: Option<Lease>
    var previous: Option<Lease>
    var stage: Option<Phase>
    var outcomes: seq<Outcome>
    var log: seq<Event>

    function Now(): State reads this {
      State(host, lease, previous, stage, outcomes, log)
    }

    constructor (previous: Option<Lease>, issued: Lease, key: Key)
      ensures Now() == Begun(previous, key) && this.issued == issued
    {
      this.issued := issued;
      host, lease, this.previous := Target(New, false, key, key, false, false, false, false), None, previous;
      stage, outcomes, log := None, [], [];
    }

    method Ask(a: Action) returns (r: Answer)
      modifies this`host, this`outcomes, this`log
      ensures (Now(), r) == Asked(old(Now()), a)
    {
      if outcomes == [] { return Died; }
      var o, completes := outcomes[0], Completes(host, a, outcomes[0].effect);
      outcomes, host := outcomes[1..], Serve(host, a, o.effect);
      if o.lost || !completes { return Failed; }
      log := log + [Reported(host.phase)];
      r := Ok(host.phase);
    }

    method Step() returns (r: Answer)
      modifies this`outcomes
      ensures (Now(), r) == Stepped(old(Now()))
    {
      if outcomes == [] { return Died; }
      r := if outcomes[0].lost then Failed else Ok(New);
      outcomes := outcomes[1..];
    }

    method Revoke(l: Lease) returns (r: Answer)
      modifies this`outcomes, this`log
      ensures (Now(), r) == Revoked(old(Now()), l)
    {
      r := Step();
      if !r.Died? { log := log + [Revoking(l)]; }
    }

    method Finish() returns (r: Answer)
      modifies this`outcomes, this`log, this`previous
      ensures (Now(), r) == FinishedBy(old(Now()))
    {
      if previous.Some? && previous != lease {
        r := Revoke(previous.value);
        if !r.Ok? { return; }
        r := Step();
        if !r.Ok? { return; }
        previous := None;
      }
      r := Step();
    }

    method Note(p: Phase) returns (r: Answer)
      modifies this`outcomes, this`stage
      ensures (Now(), r) == Noted(old(Now()), p)
    {
      r := Step();
      if r.Ok? { r, stage := Ok(p), Some(p); }
    }

    method Deliver() returns (r: Answer)
      modifies this`host, this`outcomes, this`log, this`lease
      ensures (Now(), r) == Delivered(old(Now()), issued)
    {
      if lease.None? { lease := Some(issued); }
      r := Step();
      if r.Ok? { r := Ask(Credential(lease.value)); }
    }

    method Prepare(p: Phase) returns (r: Answer)
      modifies this`host, this`outcomes, this`log, this`lease
      ensures (Now(), r) == PreparedBy(old(Now()), issued, p)
    {
      r := Ok(p);
      if p.New? || p.SnapshotReady? {
        r := Ask(Snapshot);
        if !r.Ok? { return; }
        r := Step();
        if !r.Ok? { return; }
        r := Ask(Acknowledge);
        if !r.Ok? { return; }
        r := Deliver();
      } else if p.BackupVerified? {
        r := Deliver();
      }
    }

    method Poll() returns (r: Answer)
      modifies this`host, this`outcomes, this`log, this`previous, this`stage
      ensures (Now(), r) == Polled(old(Now()))
    {
      while true
        invariant Polled(Now()) == Polled(old(Now()))
        decreases |outcomes|
      {
        r := Step();
        if !r.Ok? { return; }
        r := Ask(Go);
        if r.Died? || (r.Failed? && !Waiting(stage)) { return; }
        if r.Ok? {
          r := Note(r.phase);
          if !r.Ok? { return; }
          if r.phase.Closed? {
            r := Finish();
            return;
          }
          if !Waiting(stage) { return Failed; }
        }
      }
    }

    method Converge(command: Command) returns (r: Answer)
      modifies this
      ensures (Now(), r) == Converged(old(Now()), issued, command)
    {
      r := Ask(Bound);
      if !r.Ok? { return; }
      if command.RollbackCommand? {
        r := Ask(Rollback);
        if r.Ok? { r := Note(r.phase); }
      } else if r.phase.Closed? {
        r := Ask(Go);
        if r.Ok? { r := Finish(); }
      } else {
        r := Prepare(r.phase);
        if r.Ok? { r := Poll(); }
      }
    }

    method Recover()
      modifies this`host, this`outcomes, this`log, this`stage
      ensures Now() == Recovered(old(Now()))
    {
      var r := Ask(Bound);
      if !r.Ok? || !Recoverable(r.phase) { return; }
      r := Ask(Rollback);
      if !r.Ok? { return; }
      var p := r.phase;
      if p.RolledBack? && lease.Some? {
        r := Revoke(lease.value);
        if !r.Ok? { return; }
      }
      r := Note(p);
    }

    method Invoke(v: Invocation)
      modifies this
      ensures Now() == Invoked(old(Now()), issued, v)
    {
      outcomes := v.outcomes;
      var r := Converge(v.command);
      if r.Failed? { Recover(); }
    }
  }

  /* ---------- what every run keeps ---------- */

  /** The leases and keys of a run, how far its rollbacks may get, whether an operator may ask for
      one, and whether it starts from an interrupted `package-staging`. */
  datatype Setting = Setting(previous: Option<Lease>, issued: Lease, key: Key, depths: set<Depth>, operator: bool,
                             stuck: bool) {
    predicate Valid() {
      previous != Some(issued) && key != Of(issued)
    }
  }

  /** Which key is on the host in which phase. */
  ghost predicate KeysKnown(h: Target, c: Setting) {
    && h.original == c.key && (h.key == c.key || h.key == Of(c.issued))
    && (!h.captured ==> h.phase.New?) && (h.phase.New? ==> h.key == c.key)
    && (h.closed ==> Rank(h.phase) >= 10) && (h.phase.Closed? ==> h.closed) && (h.late ==> h.closed)
    && (h.torn || h.late ==> h.key == c.key)
    && (!h.closed && 4 <= Rank(h.phase) <= 9 && !h.torn ==> h.key == Of(c.issued))
    && (!h.closed && Rank(h.phase) == 11 ==> h.key == c.key)
    && (h.closed && !h.torn && !h.late ==> h.key == Of(c.issued))
    && (h.waiting ==> h.phase.RebootPending? || h.phase.PersistenceReboot? || Rank(h.phase) == 11)
  }

  /** What the setting excludes. */
  ghost predicate Excluded(h: Target, c: Setting) {
    && (KeyOnly !in c.depths ==> !h.torn)
    && (!c.operator ==> !h.late && (h.closed ==> h.phase.Closed?))
    && (c.depths <= {Untouched} ==> !h.torn && !h.late)
    && (c.stuck ==> !h.closed && (h.phase.PackageStaging? || Rank(h.phase) == 11))
  }

  /** The previous lease is given up only after the host has reported `closed`, the new one only
      after it has reported `rolled-back`; no other lease is ever revoked. */
  ghost predicate Allowed(past: seq<Event>, e: Event, previous: Option<Lease>, issued: Lease) {
    e.Revoking? ==>
      || (Some(e.lease) == previous && Reported(Closed) in past)
      || (e.lease == issued && Reported(RolledBack) in past)
  }

  ghost function Rule(previous: Option<Lease>, issued: Lease): (seq<Event>, Event) -> bool {
    (past, e) => Allowed(past, e, previous, issued)
  }

  ghost predicate Lawful(log: seq<Event>, previous: Option<Lease>, issued: Lease) {
    Obeyed(Rule(previous, issued), log)
  }

  /** A revocation finds the host in a phase it does not leave; the new lease is given up only
      with the old key back on the host. */
  ghost predicate Settled(s: State, c: Setting) {
    forall l :: Revoking(l) in s.log ==>
      if l == c.issued then Rank(s.host.phase) == 11 && s.host.key == c.key else s.host.closed && Some(l) == c.previous
  }

  ghost predicate Inv(s: State, c: Setting) {
    && c.Valid() && (s.previous == c.previous || s.previous.None?) && (s.lease == Some(c.issued) || s.lease.None?)
    && (forall o :: o in s.outcomes ==> o.effect.depth in c.depths)
    && KeysKnown(s.host, c) && Excluded(s.host, c) && Lawful(s.log, c.previous, c.issued) && Settled(s, c)
  }

  lemma RollBackKeeps(h: Target, d: Depth, c: Setting)
    requires c.Valid() && KeysKnown(h, c) && Excluded(h, c) && d in c.depths && (h.phase.Closed? ==> c.operator)
    ensures KeysKnown(RollBack(h, d), c) && Excluded(RollBack(h, d), c)
    ensures h.closed ==> RollBack(h, d).closed
    ensures Rank(h.phase) == 11 ==> Rank(RollBack(h, d).phase) == 11
    ensures h.key == c.key ==> RollBack(h, d).key == c.key
    ensures !h.phase.Closed? && h.captured && d.Finished? ==> RollBack(h, d).key == c.key
  {
  }

  lemma {:induction false} AdvanceKeeps(h: Target, steps: nat, c: Setting)
    requires KeysKnown(h, c) && Excluded(h, c) && steps <= Room(h) && (c.stuck ==> steps == 0)
    ensures KeysKnown(Advance(h, steps), c) && Excluded(Advance(h, steps), c)
    ensures Advance(h, steps).key == h.key
    decreases steps
  {
    if steps > 0 { AdvanceKeeps(Forward(h), steps - 1, c); }
  }

  lemma GoKeeps(h: Target, e: Effect, c: Setting)
    requires c.Valid() && KeysKnown(h, c) && Excluded(h, c) && e.depth in c.depths
    ensures var g := Served(h, Go, e); KeysKnown(g, c) && Excluded(g, c) && (Rank(h.phase) >= 10 ==> g == h)
    ensures h.closed ==> Served(h, Go, e).closed
  {
    var g := Advanced(h, e.steps);
    AdvanceKeeps(h, if e.steps < Cap(h) then e.steps else Cap(h), c);
    if e.fails && 7 <= Rank(g.phase) <= 9 { RollBackKeeps(g, e.depth, c); }
  }

  lemma ServeKeeps(h: Target, a: Action, e: Effect, c: Setting)
    requires c.Valid() && KeysKnown(h, c) && Excluded(h, c) && e.depth in c.depths
    requires a.Rollback? && h.phase.Closed? ==> c.operator
    requires a.Credential? ==> a.lease == c.issued
    ensures KeysKnown(Serve(h, a, e), c) && Excluded(Serve(h, a, e), c)
    ensures h.closed ==> Serve(h, a, e).closed
    ensures Rank(h.phase) == 11 && h.key == c.key ==> Rank(Serve(h, a, e).phase) == 11 && Serve(h, a, e).key == c.key
  {
    var b := Booted(h, e);
    match a
    case Go => GoKeeps(b, e, c);
    case Rollback => RollBackKeeps(b, e.depth, c);
    case _ =>
  }

  lemma AskedKeeps(s: State, a: Action, c: Setting)
    requires Inv(s, c) && (a.Rollback? && s.host.phase.Closed? ==> c.operator)
    requires a.Credential? ==> a.lease == c.issued
    ensures var (t, r) := Asked(s, a);
      && Inv(t, c) && t.lease == s.lease && t.previous == s.previous && (s.host.closed ==> t.host.closed)
      && (r.Ok? ==> r.phase == t.host.phase && Reported(r.phase) in t.log)
      && (a.Bound? ==> t.host == s.host.(waiting := t.host.waiting))
      && (r.Ok? && a.Rollback? && !s.host.phase.Closed? ==> t.host.key == c.key)
  {
    if s.outcomes != [] {
      var o := s.outcomes[0];
      var t := s.(outcomes := s.outcomes[1..], host := Serve(s.host, a, o.effect));
      ServeKeeps(s.host, a, o.effect, c);
      assert Inv(t, c);
      ReportKeeps(t, c);
      if a.Rollback? { RollBackKeeps(Booted(s.host, o.effect), o.effect.depth, c); }
    }
  }

  lemma ReportKeeps(s: State, c: Setting)
    requires Inv(s, c)
    ensures Inv(s.(log := s.log + [Reported(s.host.phase)]), c)
    ensures Reported(s.host.phase) in s.log + [Reported(s.host.phase)]
  {
    ObeyedNext(Rule(c.previous, c.issued), s.log, Reported(s.host.phase));
  }

  lemma RevokedKeeps(s: State, l: Lease, c: Setting)
    requires Inv(s, c)
    requires if l == c.issued then Rank(s.host.phase) == 11 && s.host.key == c.key && Reported(RolledBack) in s.log
             else s.host.closed && Some(l) == c.previous && Reported(Closed) in s.log
    ensures Inv(Revoked(s, l).0, c)
  {
    ObeyedNext(Rule(c.previous, c.issued), s.log, Revoking(l));
  }

  lemma FinishedKeeps(s: State, c: Setting)
    requires Inv(s, c) && s.host.phase.Closed? && Reported(Closed) in s.log
    ensures Inv(FinishedBy(s).0, c)
  {
    if s.previous.Some? && s.previous != s.lease { RevokedKeeps(s, s.previous.value, c); }
  }

  lemma NotedKeeps(s: State, p: Phase, c: Setting)
    requires Inv(s, c)
    ensures var (t, r) := Noted(s, p);
      Inv(t, c) && t.host == s.host && t.log == s.log && (r.Ok? ==> t.stage == Some(p))
  {
  }

  lemma DeliveredKeeps(s: State, c: Setting)
    requires Inv(s, c)
    ensures Inv(Delivered(s, c.issued).0, c)
  {
    var t := s.(lease := if s.lease.None? then Some(c.issued) else s.lease);
    var (u, r) := Stepped(t);
    if r.Ok? { AskedKeeps(u, Credential(t.lease.value), c); }
  }

  lemma PreparedKeeps(s: State, p: Phase, c: Setting)
    requires Inv(s, c)
    ensures Inv(PreparedBy(s, c.issued, p).0, c)
  {
    if p.New? || p.SnapshotReady? {
      AskedKeeps(s, Snapshot, c);
      var (t, r) := Asked(s, Snapshot);
      if r.Ok? {
        var (u, q) := Stepped(t);
        if q.Ok? {
          AskedKeeps(u, Acknowledge, c);
          DeliveredKeeps(Asked(u, Acknowledge).0, c);
        }
      }
    } else if p.BackupVerified? {
      DeliveredKeeps(s, c);
    }
  }

  lemma {:induction false} PolledKeeps(s: State, c: Setting)
    requires Inv(s, c)
    ensures Inv(Polled(s).0, c)
    decreases |s.outcomes|
  {
    var (t, r) := Stepped(s);
    if r.Ok? {
      AskedKeeps(t, Go, c);
      var (u, q) := Asked(t, Go);
      if q.Failed? && Waiting(u.stage) {
        PolledKeeps(u, c);
      } else if q.Ok? {
        NotedKeeps(u, q.phase, c);
        var (v, w) := Noted(u, q.phase);
        if w.Ok? && q.phase.Closed? {
          FinishedKeeps(v, c);
        } else if w.Ok? && Waiting(v.stage) {
          PolledKeeps(v, c);
        }
      }
    }
  }

  lemma ConvergedKeeps(s: State, command: Command, c: Setting)
    requires Inv(s, c) && (command.RollbackCommand? ==> c.operator)
    ensures Inv(Converged(s, c.issued, command).0, c)
  {
    AskedKeeps(s, Bound, c);
    var (t, r) := Asked(s, Bound);
    if r.Ok? {
      if command.RollbackCommand? {
        AskedKeeps(t, Rollback, c);
        var (u, q) := Asked(t, Rollback);
        if q.Ok? { NotedKeeps(u, q.phase, c); }
      } else if r.phase.Closed? {
        AskedKeeps(t, Go, c);
        var (u, q) := Asked(t, Go);
        if q.Ok? {
          ClosedGoes(t, c);
          FinishedKeeps(u, c);
        }
      } else {
        PreparedKeeps(t, r.phase, c);
        PolledKeeps(PreparedBy(t, c.issued, r.phase).0, c);
      }
    }
  }

  /** A closed host stays as it is when it is asked to advance. */
  lemma ClosedGoes(s: State, c: Setting)
    requires Inv(s, c) && s.host.phase.Closed?
    ensures Asked(s, Go).0.host.phase.Closed?
  {
    if s.outcomes != [] {
      assert Advanced(Booted(s.host, s.outcomes[0].effect), s.outcomes[0].effect.steps).phase.Closed?;
    }
  }

  lemma RecoveredKeeps(s: State, c: Setting)
    requires Inv(s, c)
    ensures Inv(Recovered(s), c)
  {
    AskedKeeps(s, Bound, c);
    var (t, r) := Asked(s, Bound);
    if r.Ok? && Recoverable(r.phase) {
      AskedKeeps(t, Rollback, c);
      var (u, q) := Asked(t, Rollback);
      if q.Ok? { SettledRecovery(u, c, q.phase); }
    }
  }

  /** A completed rollback of the failure path has put the old key back before the new lease goes. */
  lemma SettledRecovery(s: State, c: Setting, p: Phase)
    requires Inv(s, c) && p == s.host.phase && Reported(p) in s.log && s.host.key == c.key
    ensures Inv(RecoveryNoted(s, p), c)
  {
    if p.RolledBack? && s.lease.Some? {
      RevokedKeeps(s, s.lease.value, c);
      NotedKeeps(Revoked(s, s.lease.value).0, p, c);
    } else {
      NotedKeeps(s, p, c);
    }
  }

  /** Everything the run meets lies within the setting. */
  ghost predicate Within(invocations: seq<Invocation>, c: Setting) {
    forall v :: v in invocations ==>
      && (v.command.RollbackCommand? ==> c.operator)
      && forall o :: o in v.outcomes ==> o.effect.depth in c.depths
  }

  lemma {:induction false} AfterKeeps(s: State, invocations: seq<Invocation>, c: Setting)
    requires Inv(s, c) && Within(invocations, c)
    ensures Inv(After(s, c.issued, invocations), c)
    decreases |invocations|
  {
    if invocations != [] {
      var init, v := invocations[..|invocations| - 1], invocations[|invocations| - 1];
      AfterKeeps(s, init, c);
      var t := After(s, c.issued, init).(outcomes := v.outcomes);
      ConvergedKeeps(t, v.command, c);
      RecoveredKeeps(Converged(t, c.issued, v.command).0, c);
    }
  }

  /** The key on the host is one this run has given up. */
  ghost predicate Holds(s: State) {
    s.host.key.Of? && Revoking(s.host.key.lease) in s.log
  }

  /** Such a key is the old one, written back by a torn or by a late rollback. */
  lemma HeldIsOld(s: State, c: Setting)
    requires Inv(s, c)
    ensures Holds(s) ==> (s.host.torn || s.host.late) && s.host.closed && s.host.key == c.key
    ensures Holds(s) ==> Some(s.host.key.lease) == c.previous
  {
  }

  /* ---------- whole runs of the program ---------- */

  /** Any number of invocations for one release that starts at `new`, each cut and answered in any
      way. The order of reports and revocations holds for all of them. No revoked key stays on the
      host unless some rollback died right after writing it, before the release was closed, or a
      rollback had an effect on a host already rolled back from `closed`. */
  method Run(previous: Option<Lease>, issued: Lease, key: Key, invocations: seq<Invocation>) returns (s: State)
    requires previous != Some(issued) && key != Of(issued)
    ensures s == After(Begun(previous, key), issued, invocations)
    ensures Lawful(s.log, previous, issued)
    ensures NoTear(invocations) && NoRollback(invocations) ==> !Holds(s)
    ensures NoTear(invocations) && !s.host.late ==> !Holds(s)
    ensures NoRollback(invocations) && !s.host.torn ==> !Holds(s)
  {
    var c := new Controller(previous, issued, key);
    for i := 0 to |invocations|
      invariant fresh(c) && c.issued == issued
      invariant c.Now() == After(Begun(previous, key), issued, invocations[..i])
    {
      assert invocations[..i + 1][..i] == invocations[..i];
      c.Invoke(invocations[i]);
    }
    assert invocations[..|invocations|] == invocations;
    s := State(c.host, c.lease, c.previous, c.stage, c.outcomes, c.log);
    Judge(previous, issued, key, invocations, NoTear(invocations), NoRollback(invocations));
  }

  /** No rollback dies between the key and the journal. */
  predicate NoTear(invocations: seq<Invocation>) {
    forall v :: v in invocations ==> forall o :: o in v.outcomes ==> !o.effect.depth.KeyOnly?
  }

  /** No operator asks for a rollback. */
  predicate NoRollback(invocations: seq<Invocation>) {
    forall v :: v in invocations ==> !v.command.RollbackCommand?
  }

  lemma Judge(previous: Option<Lease>, issued: Lease, key: Key, invocations: seq<Invocation>, calm: bool, alone: bool)
    requires previous != Some(issued) && key != Of(issued)
    requires calm == NoTear(invocations) && alone == NoRollback(invocations)
    ensures var s := After(Begun(previous, key), issued, invocations);
      && Lawful(s.log, previous, issued)
      && (Holds(s) ==> s.host.torn || s.host.late) && (calm ==> !s.host.torn) && (alone ==> !s.host.late)
  {
    var some := {Untouched, Finished(true), Finished(false)};
    var c := Setting(previous, issued, key, if calm then some else some + {KeyOnly}, !alone, false);
    forall d: Depth ensures d in some || d.KeyOnly? {
      if d.Finished? { assert d == Finished(d.healthy); }
    }
    assert Within(invocations, c);
    AfterKeeps(Begun(previous, key), invocations, c);
    HeldIsOld(After(Begun(previous, key), issued, invocations), c);
  }
}
