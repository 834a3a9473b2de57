/** The phase machine of the simple installer (`simple/host.py`): every deployment keeps its own
    undo log and a link to the deployment it replaces. Any process may die before any durable
    write; a guard or the next request then recovers. Paths are the tracked files. */
module SimpleInstaller {
  import opened Options
  import opened UndoLog

  type Path = string
  datatype File = File(bytes: string, mode: nat)
  type Files = map<Path, File>
  type Records = seq<Record<Path, File>>

  datatype Phase = Preparing | BackupVerified | AwaitingAccess | AccessConfirmed | Installing | Closed
    | RollingBack | RolledBack

  /** `state.json`; `id` is the deployment's token. */
  datatype State = State(phase: Phase, id: nat, records: Records, previous: Option<State>)

  predicate Settled(p: Phase) {
    p.Closed? || p.RolledBack?
  }

  /** A deployment that closed, with the files as they were then. Number 0 stands for the host
      before any installation. */
  datatype Accepted = Accepted(id: nat, files: Files)

  /** `track` and then change: a `write`, or a tool rewriting a tracked file. */
  datatype Write = Write(path: Path, file: Option<File>)

  /** The files after some writes. */
  function AllChanged(files: Files, writes: seq<Write>): Files {
    if writes == [] then files
    else
      var w := writes[|writes| - 1];
      Changed(AllChanged(files, writes[..|writes| - 1]), w.path, w.file)
  }

  /** What an observer sees: a deployment closes with some files, or the closed one is given up. */
  datatype Event = Closing(id: nat, files: Files) | GivenUp

  /** The deployments that closed and have not been given up since, oldest first. */
  function Standing(initial: Files, log: seq<Event>): (r: seq<Accepted>)
    ensures |r| >= 1 && r[0] == Accepted(0, initial)
  {
    if log == [] then [Accepted(0, initial)]
    else
      var before, e := Standing(initial, log[..|log| - 1]), log[|log| - 1];
      match e
      case Closing(id, files) => before + [Accepted(id, files)]
      case GivenUp => if |before| >= 2 then before[..|before| - 1] else before
  }

  /** `previous` links to the deployment whose files are the `k`-th accepted ones. */
  ghost predicate Links(previous: Option<State>, accepted: seq<Accepted>, k: int)
    requires 0 <= k < |accepted|
  {
    && (previous.None? <==> k == 0)
    && (previous.Some? ==> previous.value.phase.Closed? && previous.value.id == accepted[k].id)
  }

  /* ---------- what one request leaves ---------- */

  /** The files, the undo log of the deployment at work, and the durable writes the process has left. */
  datatype Work = Work(files: Files, records: Records, budget: nat)

  /** `write`: track, then change, as far as the process lives. */
  function Applied(k: Work, w: Write): Work {
    var tracked := if k.budget == 0 || Recorded(k.records, w.path) then k
                   else Work(k.files, k.records + [Record(w.path, At(k.files, w.path))], k.budget - 1);
    if tracked.budget == 0 then tracked
    else tracked.(files := Changed(k.files, w.path, w.file), budget := tracked.budget - 1)
  }

  function AllApplied(k: Work, writes: seq<Write>): Work {
    if writes == [] then k
    else Applied(AllApplied(k, writes[..|writes| - 1]), writes[|writes| - 1])
  }

  /** The loop of `recover`: the newest record first. */
  function Undone(files: Files, records: Records, budget: nat): (Files, nat)
    decreases |records|
  {
    if records == [] || budget == 0 then (files, budget)
    else
      var last := records[|records| - 1];
      Undone(Changed(files, last.path, last.file), records[..|records| - 1], budget - 1)
  }

  datatype Host = Host(files: Files, state: Option<State>, budget: nat, log: seq<Event>)

  function WorkOf(h: Host): Work
    requires h.state.Some?
  {
    Work(h.files, h.state.value.records, h.budget)
  }

  /** The installer with this work done. */
  function Worked(h: Host, k: Work): Host
    requires h.state.Some?
  {
    h.(files := k.files, budget := k.budget, state := Some(h.state.value.(records := k.records)))
  }

  /** `save`, if the process lives. */
  function Saved(h: Host, s: State): Host {
    if h.budget == 0 then h else h.(state := Some(s), budget := h.budget - 1)
  }

  function Phased(h: Host, p: Phase): Host
    requires h.state.Some?
  {
    Saved(h, h.state.value.(phase := p))
  }

  /** `recover`. */
  function Recovered(h: Host, works: bool): (Host, bool) {
    if h.state.Some? && Settled(h.state.value.phase) then (h, true)
    else if h.state.None? then
      if works && h.budget > 0 then (Saved(h, State(RolledBack, 0, [], None)), true) else (h, false)
    else
      var (files, budget) := Undone(h.files, h.state.value.records, h.budget);
      var undone := h.(files := files, budget := budget);
      if works && budget > 0 then (Phased(undone, RolledBack), true) else (undone, false)
  }

  /** What a new deployment replaces. */
  function Replaced(state: Option<State>): Option<State> {
    if state.None? then None
    else if state.value.phase.Closed? then state
    else state.value.previous
  }

  /** A new deployment, its backup, and the writes of `configure_access`. */
  function Begun(h: Host, id: nat, writes: seq<Write>): (r: Host)
    requires h.budget > 0
    ensures r.state.Some?
  {
    var started := Saved(h, State(Preparing, id, [], Replaced(h.state)));
    var backed := if started.state.value.previous.Some? then Phased(started, BackupVerified) else started;
    Worked(backed, AllApplied(WorkOf(backed), writes))
  }

  function AfterPrepare(h: Host, id: nat, same: bool, refused: bool, writes: seq<Write>, fails: bool,
                        works: bool): (Host, bool) {
    var (ready, done) := if h.state.None? then (h, true) else Recovered(h, works);
    if !done then (ready, false) else AfterReady(ready, id, same, refused, writes, fails, works)
  }

  /** `prepare` from a settled host. */
  function AfterReady(ready: Host, id: nat, same: bool, refused: bool, writes: seq<Write>, fails: bool,
                      works: bool): (Host, bool) {
    if same && ready.state.Some? && ready.state.value.phase.Closed? then (ready, true)
    else if refused || ready.budget == 0 then (ready, false)
    else AfterBegun(Begun(ready, id, writes), fails, works)
  }

  /** A command has failed, or the deployment waits for access. */
  function AfterBegun(h: Host, fails: bool, works: bool): (Host, bool)
    requires h.state.Some?
  {
    if fails then (Recovered(h, works).0, false) else (Phased(h, AwaitingAccess), h.budget > 1)
  }

  function AfterConfirm(h: Host, bound: bool): (Host, bool) {
    if !bound || h.state.None? || !h.state.value.phase.AwaitingAccess? || h.budget == 0 then (h, false)
    else (Phased(h, AccessConfirmed), true)
  }

  function AfterDeploy(h: Host, bound: bool, writes: seq<Write>, fails: bool, works: bool): (Host, bool) {
    if !bound || h.state.None? || !h.state.value.phase.AccessConfirmed? then (h, false)
    else
      var begun := Phased(h, Installing);
      AfterInstall(Worked(begun, AllApplied(WorkOf(begun), writes)), fails, works)
  }

  /** A command has failed, or the deployment closes. */
  function AfterInstall(h: Host, fails: bool, works: bool): (Host, bool)
    requires h.state.Some?
  {
    if fails then (Recovered(h, works).0, false)
    else if h.budget == 0 then (h, false)
    else (Phased(h, Closed).(log := h.log + [Closing(h.state.value.id, h.files)]), true)
  }

  function AfterRollback(h: Host, works: bool): (Host, bool) {
    if h.state.None? || !h.state.value.phase.Closed? || h.state.value.previous.None? || h.budget == 0 then (h, false)
    else Recovered(Phased(h, RollingBack).(log := h.log + [GivenUp]), works)
  }

  lemma {:induction false} AppliedCost(k: Work, writes: seq<Write>)
    ensures var after := AllApplied(k, writes);
      && k.budget - 2 * |writes| <= after.budget <= k.budget && |after.records| <= |k.records| + |writes|
      && (after.budget > 0 ==> after.files == AllChanged(k.files, writes))
  {
    if writes != [] { AppliedCost(k, writes[..|writes| - 1]); }
  }

  lemma {:induction false} UndoneCost(files: Files, records: Records, budget: nat)
    ensures Undone(files, records, budget).1 == if budget < |records| then 0 else budget - |records|
    decreases |records|
  {
    if records != [] && budget > 0 {
      var last := records[|records| - 1];
      UndoneCost(Changed(files, last.path, last.file), records[..|records| - 1], budget - 1);
    }
  }

  /** A recovery is done if and only if there was nothing to do, or the services come back and the process
      lives for all records and the journal. */
  lemma RecoveredExactly(h: Host, works: bool)
    ensures Recovered(h, works).1 <==>
      || (h.state.Some? && Settled(h.state.value.phase))
      || (works && h.budget > if h.state.Some? then |h.state.value.records| else 0)
  {
    if h.state.Some? { UndoneCost(h.files, h.state.value.records, h.budget); }
  }

  class Installer {
    var files: Files
    var state: Option<State>
    /** Durable writes the running process still performs before it dies. */
    var budget: nat
    var log: seq<Event>
    ghost const initial: Files
    /** `Standing` of the log. */
    ghost var accepted: seq<Accepted>

    /** The files to which the current undo log leads back. */
    ghost function Base(): int reads this {
      if state.Some? && state.value.phase.Closed? then |accepted| - 2 else |accepted| - 1
    }

    ghost predicate Valid() reads this {
      && accepted == Standing(initial, log) && 0 <= Base() < |accepted|
      && (state.None? ==> files == accepted[0].files && |accepted| == 1)
      && (state.Some? ==>
            && Links(state.value.previous, accepted, Base())
            && (Settled(state.value.phase) ==> files == accepted[|accepted| - 1].files)
            && (state.value.phase.Closed? ==> accepted[|accepted| - 1].id == state.value.id)
            && Faithful(state.value.records, files, accepted[Base()].files))
    }

    function Now(): Host reads this {
      Host(files, state, budget, log)
    }

    constructor (initial: Files)
      ensures Valid() && this.initial == initial && Now() == Host(initial, None, 0, [])
    {
      files, state, budget, log := initial, None, 0, [];
      this.initial := initial;
      accepted := [Accepted(0, initial)];
    }

    /** `save` with a phase that decides nothing yet. */
    method SavePhase(p: Phase)
      requires Valid() && state.Some? && !Settled(state.value.phase) && !Settled(p)
      modifies this`state, this`budget
      ensures Valid() && state.Some? && !Settled(state.value.phase) && budget <= old(budget)
      ensures Now() == Phased(old(Now()), p)
    {
      if budget == 0 { return; }
      budget := budget - 1;
      state := Some(state.value.(phase := p));
    }

    /** `write`: track, then change. */
    method Apply(w: Write)
      requires Valid() && state.Some? && !Settled(state.value.phase)
      modifies this`files, this`state, this`budget
      ensures Valid() && state.Some? && state.value == old(state).value.(records := state.value.records)
      ensures Now() == Worked(old(Now()), Applied(WorkOf(old(Now())), w))
    {
      if budget == 0 { return; }
      var s := state.value;
      ghost var origin := accepted[|accepted| - 1].files;
      if !Recorded(s.records, w.path) {
        budget := budget - 1;
        RecordKeeps(s.records, files, origin, w.path);
        state := Some(s.(records := s.records + [Record(w.path, At(files, w.path))]));
      }
      if budget == 0 { return; }
      budget := budget - 1;
      ChangeKeeps(state.value.records, files, origin, w.path, w.file);
      files := Changed(files, w.path, w.file);
    }

    method ApplyAll(writes: seq<Write>)
      requires Valid() && state.Some? && !Settled(state.value.phase)
      modifies this`files, this`state, this`budget
      ensures Valid() && state.Some? && state.value == old(state).value.(records := state.value.records)
      ensures Now() == Worked(old(Now()), AllApplied(WorkOf(old(Now())), writes))
    {
      for i := 0 to |writes|
        invariant Valid() && state.Some? && state.value == old(state).value.(records := state.value.records)
        invariant Now() == Worked(old(Now()), AllApplied(WorkOf(old(Now())), writes[..i]))
      {
        assert writes[..i + 1][..i] == writes[..i];
        Apply(writes[i]);
      }
      assert writes[..|writes|] == writes;
    }

    /** The loop of `recover`: the newest record first. */
    method RestoreAll()
      requires Valid() && state.Some? && !Settled(state.value.phase)
      modifies this`files, this`budget
      ensures Valid() && (files, budget) == Undone(old(files), state.value.records, old(budget))
      ensures budget > 0 ==> files == accepted[|accepted| - 1].files
    {
      var records := state.value.records;
      assert records[..|records|] == records;
      ghost var origin := accepted[|accepted| - 1].files;
      var i := |records|;
      while i > 0
        invariant 0 <= i <= |records| && Valid() && budget <= old(budget)
        invariant budget > 0 ==> forall k :: i <= k < |records| ==>
          At(files, records[k].path) == At(origin, records[k].path)
        invariant Undone(files, records[..i], budget) == Undone(old(files), records, old(budget))
      {
        i := i - 1;
        assert records[..i + 1][..i] == records[..i];
        if budget > 0 {
          budget := budget - 1;
          assert Recorded(records, records[i].path);
          ChangeKeeps(records, files, origin, records[i].path, records[i].file);
          files := Changed(files, records[i].path, records[i].file);
        }
      }
      if budget > 0 { AllBack(records, files, origin); }
    }

    /** `recover`: nothing to do once settled, else undo and settle. `works` says whether the
        services come back. */
    method Recover(works: bool) returns (done: bool)
      requires Valid()
      modifies this`files, this`state, this`budget
      ensures Valid() && (Now(), done) == Recovered(old(Now()), works)
      ensures done ==> state.Some? && Settled(state.value.phase)
      ensures old(state).Some? && Settled(old(state).value.phase) ==> done && state == old(state) && files == old(files)
      ensures old(state).Some? && works && old(budget) > |old(state).value.records| ==> done
      ensures done && old(state).Some? ==> state.value.previous == old(state).value.previous
    {
      if state.None? {
        if !works || budget == 0 { return false; }
        budget := budget - 1;
        state := Some(State(RolledBack, 0, [], None));
        return true;
      }
      if Settled(state.value.phase) { return true; }
      UndoneCost(files, state.value.records, budget);
      RestoreAll();
      if !works || budget == 0 { return false; }
      budget := budget - 1;
      state := Some(state.value.(phase := RolledBack));
      done := true;
    }

    /** `prepare`: recover what is unfinished, then start a deployment that replaces the one in
        force. `fails` says that some command fails after the writes of `configure_access`. */
    method Prepare(id: nat, same: bool, refused: bool, writes: seq<Write>, fails: bool, works: bool) returns (ok: bool)
      requires Valid()
      modifies this
      ensures Valid() && (Now(), ok) == AfterPrepare(old(Now()), id, same, refused, writes, fails, works)
      ensures log == old(log)
    {
      if state.Some? && !Settled(state.value.phase) {
        var done := Recover(works);
        if !done { return false; }
      }
      ok := PrepareReady(id, same, refused, writes, fails, works);
    }

    method PrepareReady(id: nat, same: bool, refused: bool, writes: seq<Write>, fails: bool, works: bool)
      returns (ok: bool)
      requires Valid() && (state.Some? ==> Settled(state.value.phase))
      modifies this`files, this`state, this`budget
      ensures Valid() && (Now(), ok) == AfterReady(old(Now()), id, same, refused, writes, fails, works)
    {
      if same && state.Some? && state.value.phase.Closed? { return true; }
      if refused || budget == 0 { return false; }
      Undertake(id, writes);
      ok := Await(fails, works);
    }

    /** A new deployment, its backup, and the writes of `configure_access`. */
    method Undertake(id: nat, writes: seq<Write>)
      requires Valid() && (state.Some? ==> Settled(state.value.phase)) && budget > 0
      modifies this`files, this`state, this`budget
      ensures Valid() && Now() == Begun(old(Now()), id, writes) && !Settled(state.value.phase)
    {
      budget := budget - 1;
      Begin(id);
      if state.value.previous.Some? { SavePhase(BackupVerified); }
      ApplyAll(writes);
    }

    method Await(fails: bool, works: bool) returns (ok: bool)
      requires Valid() && state.Some? && !Settled(state.value.phase)
      modifies this`files, this`state, this`budget
      ensures Valid() && (Now(), ok) == AfterBegun(old(Now()), fails, works)
      ensures fails && works && old(budget) > |old(state).value.records| ==>
        state.Some? && state.value.phase.RolledBack?
      ensures !fails && old(budget) > 1 ==> ok && state.Some? && state.value.phase.AwaitingAccess?
    {
      if fails {
        var _ := Recover(works);
        return false;
      }
      SavePhase(AwaitingAccess);
      ok := budget > 0;
    }

    method Begin(id: nat)
      requires Valid() && (state.Some? ==> Settled(state.value.phase))
      modifies this`state
      ensures Valid() && state.Some? && state.value.phase.Preparing? && state.value.id == id
      ensures state == Some(State(Preparing, id, [], Replaced(old(state))))
    {
      state := Some(State(Preparing, id, [], Replaced(state)));
    }

    /** `confirm-access`. */
    method ConfirmAccess(bound: bool) returns (ok: bool)
      requires Valid()
      modifies this`state, this`budget
      ensures Valid()
      ensures (Now(), ok) == AfterConfirm(old(Now()), bound)
    {
      if !bound || state.None? || !state.value.phase.AwaitingAccess? || budget == 0 { return false; }
      SavePhase(AccessConfirmed);
      ok := true;
    }

    predicate CanDeploy() reads this {
      state.Some? && state.value.phase.AccessConfirmed?
    }

    /** `deploy`: closes with the requested writes, or, if a command fails, ends with the files of the
        last accepted deployment. */
    method Deploy(bound: bool, writes: seq<Write>, fails: bool, works: bool) returns (ok: bool)
      requires Valid()
      modifies this
      ensures Valid()
      ensures (Now(), ok) == AfterDeploy(old(Now()), bound, writes, fails, works)
      ensures ok ==> files == AllChanged(old(files), writes) && log == old(log) + [Closing(state.value.id, files)]
      ensures !ok ==> log == old(log)
      ensures bound && old(CanDeploy()) && old(budget) > 2 * |writes| + 1 ==> (ok <==> !fails)
      ensures bound && old(CanDeploy() && budget > |state.value.records| + 3 * |writes| + 1) && fails && works ==>
        state.Some? && state.value.phase.RolledBack? && files == old(accepted[|accepted| - 1].files)
    {
      if !bound || state.None? || !state.value.phase.AccessConfirmed? { return false; }
      SavePhase(Installing);
      AppliedCost(WorkOf(Now()), writes);
      ApplyAll(writes);
      ok := Conclude(fails, works);
    }

    method Conclude(fails: bool, works: bool) returns (ok: bool)
      requires Valid() && state.Some? && !Settled(state.value.phase)
      modifies this
      ensures Valid() && (Now(), ok) == AfterInstall(old(Now()), fails, works)
      ensures ok <==> !fails && old(budget) > 0
      ensures ok ==> files == old(files) && log == old(log) + [Closing(state.value.id, files)]
      ensures !ok ==> log == old(log) && accepted == old(accepted)
      ensures fails && works && old(budget) > |old(state).value.records| ==>
        state.Some? && state.value.phase.RolledBack?
    {
      if fails {
        var _ := Recover(works);
        return false;
      }
      if budget == 0 { return false; }
      budget := budget - 1;
      Close();
      ok := true;
    }

    method Close()
      requires Valid() && state.Some? && !Settled(state.value.phase)
      modifies this`state, this`log, this`accepted
      ensures Valid() && state == Some(old(state).value.(phase := Closed))
      ensures log == old(log) + [Closing(state.value.id, files)]
    {
      state := Some(state.value.(phase := Closed));
      log := log + [Closing(state.value.id, files)];
      accepted := accepted + [Accepted(state.value.id, files)];
      assert log[..|log| - 1] == old(log);
    }

    /** `rollback`: only a closed deployment with a predecessor. */
    method Rollback(works: bool) returns (ok: bool)
      requires Valid()
      modifies this
      ensures Valid()
      ensures (Now(), ok) == AfterRollback(old(Now()), works)
    {
      if state.None? || !state.value.phase.Closed? || state.value.previous.None? || budget == 0 { return false; }
      budget := budget - 1;
      GiveUp();
      ok := Recover(works);
    }

    method GiveUp()
      requires Valid() && state.Some? && state.value.phase.Closed? && state.value.previous.Some?
      modifies this`state, this`log, this`accepted
      ensures Valid() && state == Some(old(state).value.(phase := RollingBack)) && log == old(log) + [GivenUp]
    {
      state := Some(state.value.(phase := RollingBack));
      log := log + [GivenUp];
      accepted := accepted[..|accepted| - 1];
      assert log[..|log| - 1] == old(log);
    }
  }

  /* ---------- whole runs ---------- */

  datatype Request =
    | DoPrepare(id: nat, same: bool, refused: bool, writes: seq<Write>, fails: bool, works: bool)
    | DoConfirm(bound: bool)
    | DoDeploy(bound: bool, writes: seq<Write>, fails: bool, works: bool)
    | DoRollback(works: bool)
    | DoRecover(works: bool)

  /** A request served by a process that dies after `budget` durable writes. */
  datatype Step = Step(request: Request, budget: nat)

  /** What a request leaves. */
  function Served(h: Host, step: Step): Host {
    var g := h.(budget := step.budget);
    match step.request
    case DoPrepare(id, same, refused, writes, fails, works) =>
      AfterPrepare(g, id, same, refused, writes, fails, works).0
    case DoConfirm(bound) => AfterConfirm(g, bound).0
    case DoDeploy(bound, writes, fails, works) => AfterDeploy(g, bound, writes, fails, works).0
    case DoRollback(works) => AfterRollback(g, works).0
    case DoRecover(works) => Recovered(g, works).0
  }

  function Ran(initial: Files, steps: seq<Step>): Host {
    if steps == [] then Host(initial, None, 0, [])
    else Served(Ran(initial, steps[..|steps| - 1]), steps[|steps| - 1])
  }

  /** The hosts between the requests of a run. */
  ghost predicate Traces(trace: seq<Host>, initial: Files, steps: seq<Step>) {
    && |trace| == |steps| + 1 && trace[0] == Host(initial, None, 0, [])
    && forall i :: 0 <= i < |steps| ==> trace[i + 1] == Served(trace[i], steps[i])
  }

  /** The requests lead to this host. */
  ghost predicate Leads(initial: Files, steps: seq<Step>, h: Host) {
    exists trace :: Traces(trace, initial, steps) && trace[|steps|] == h
  }

  lemma LeadsNext(initial: Files, steps: seq<Step>, h: Host, step: Step)
    requires Leads(initial, steps, h)
    ensures Leads(initial, steps + [step], Served(h, step))
  {
    var trace :| Traces(trace, initial, steps) && trace[|steps|] == h;
    var more := trace + [Served(h, step)];
    forall i | 0 <= i < |steps| + 1 ensures more[i + 1] == Served(more[i], (steps + [step])[i]) {
      if i < |steps| {
        assert more[i] == trace[i] && more[i + 1] == trace[i + 1];
      }
    }
    assert Traces(more, initial, steps + [step]);
  }

  lemma LeadsStart(initial: Files)
    ensures Leads(initial, [], Host(initial, None, 0, []))
  {
    assert Traces([Host(initial, None, 0, [])], initial, []);
  }

  /** And to no other. */
  lemma {:induction false} LeadsToOne(initial: Files, steps: seq<Step>, h: Host)
    requires Leads(initial, steps, h)
    ensures h == Ran(initial, steps)
  {
    var trace :| Traces(trace, initial, steps) && trace[|steps|] == h;
    if steps != [] {
      var n := |steps| - 1;
      assert Traces(trace[..|trace| - 1], initial, steps[..n]);
      LeadsToOne(initial, steps[..n], trace[n]);
    }
  }

  /** One request, in a process of its own. */
  method Serve(host: Installer, step: Step, ghost initial: Files, ghost before: seq<Step>)
    requires host.Valid() && Leads(initial, before, host.Now())
    modifies host
    ensures host.Valid() && Leads(initial, before + [step], host.Now())
  {
    LeadsNext(initial, before, host.Now(), step);
    host.budget := step.budget;
    if step.request.DoPrepare? {
      ServePrepare(host, step);
    } else if step.request.DoDeploy? {
      ServeDeploy(host, step);
    } else {
      ServeOther(host, step);
    }
  }

  method ServePrepare(host: Installer, step: Step)
    requires host.Valid() && step.request.DoPrepare? && host.budget == step.budget
    modifies host
    ensures host.Valid() && host.Now() == Served(old(host.Now()), step)
  {
    var DoPrepare(id, same, refused, writes, fails, works) := step.request;
    var _ := host.Prepare(id, same, refused, writes, fails, works);
  }

  method ServeDeploy(host: Installer, step: Step)
    requires host.Valid() && step.request.DoDeploy? && host.budget == step.budget
    modifies host
    ensures host.Valid() && host.Now() == Served(old(host.Now()), step)
  {
    var DoDeploy(bound, writes, fails, works) := step.request;
    var _ := host.Deploy(bound, writes, fails, works);
  }

  method ServeOther(host: Installer, step: Step)
    requires host.Valid() && !step.request.DoPrepare? && !step.request.DoDeploy? && host.budget == step.budget
    modifies host
    ensures host.Valid() && host.Now() == Served(old(host.Now()), step)
  {
    match step.request
    case DoConfirm(bound) => var _ := host.ConfirmAccess(bound);
    case DoRollback(works) => var _ := host.Rollback(works);
    case DoRecover(works) => var _ := host.Recover(works);
  }

  /** A rollback that nothing disturbs gives up the closed deployment, and only one with a predecessor;
      anything else it leaves alone. */
  lemma GivingUp(h: Host, many: nat)
    requires h.state.Some? ==> many > |h.state.value.records| + 1
    ensures var t := Served(h, Step(DoRollback(true), many));
      if h.state.Some? && h.state.value.phase.Closed? && h.state.value.previous.Some?
      then t.state == Some(h.state.value.(phase := RolledBack)) && t.log == h.log + [GivenUp]
      else t == h.(budget := many)
  {
    if h.state.Some? { UndoneCost(h.files, h.state.value.records, many - 1); }
  }

  /** A recovery that nothing disturbs settles what is unfinished and logs nothing. */
  lemma Recovering(h: Host, many: nat)
    requires h.state.Some? && many > |h.state.value.records|
    ensures var t := Served(h, Step(DoRecover(true), many));
      t.log == h.log && t.state == if Settled(h.state.value.phase) then h.state
                                   else Some(h.state.value.(phase := RolledBack))
  {
    UndoneCost(h.files, h.state.value.records, many);
  }

  lemma BegunFacts(h: Host, id: nat, access: seq<Write>)
    requires h.budget > 3 * |access| + 6
    ensures var b := Begun(h, id, access);
      && !Settled(b.state.value.phase) && b.state.value.id == id && b.state.value.previous == Replaced(h.state)
      && b.log == h.log && b.files == AllChanged(h.files, access)
      && b.budget > |b.state.value.records| + 1
  {
    var started := Saved(h, State(Preparing, id, [], Replaced(h.state)));
    var backed := if started.state.value.previous.Some? then Phased(started, BackupVerified) else started;
    AppliedCost(WorkOf(backed), access);
  }

  lemma BegunEnds(h: Host, fails: bool)
    requires h.state.Some? && !Settled(h.state.value.phase) && h.budget > |h.state.value.records| + 1
    ensures var a := AfterBegun(h, fails, true).0;
      && a.state == Some(h.state.value.(phase := if fails then RolledBack else AwaitingAccess)) && a.log == h.log
      && (!fails ==> a.files == h.files)
  {
    UndoneCost(h.files, h.state.value.records, h.budget);
  }

  /** An undisturbed preparation of a settled host waits for access, with its writes applied; one in
      which a command fails ends rolled back. */
  lemma Preparation(h: Host, id: nat, access: seq<Write>, fails: bool, many: nat) returns (a: Host)
    requires (h.state.Some? ==> Settled(h.state.value.phase)) && many > 3 * |access| + 6
    ensures a == Served(h, Step(DoPrepare(id, false, false, access, fails, true), many))
    ensures a.state.Some? && a.state.value.id == id && a.state.value.previous == Replaced(h.state) && a.log == h.log
    ensures if fails then a.state.value.phase.RolledBack?
            else a.state.value.phase.AwaitingAccess? && a.files == AllChanged(h.files, access)
  {
    var g := h.(budget := many);
    BegunFacts(g, id, access);
    BegunEnds(Begun(g, id, access), fails);
    a := AfterBegun(Begun(g, id, access), fails, true).0;
  }

  lemma Confirmation(h: Host)
    requires h.state.Some? && h.state.value.phase.AwaitingAccess?
    ensures Served(h, Step(DoConfirm(true), 2)) == Phased(h.(budget := 2), AccessConfirmed)
  {
  }

  lemma InstalledFacts(h: Host, writes: seq<Write>)
    requires h.state.Some? && h.budget > 2 * |writes|
    ensures var k := Worked(h, AllApplied(WorkOf(h), writes));
      && k.budget > 0 && k.files == AllChanged(h.files, writes) && k.log == h.log
      && k.state == Some(h.state.value.(records := k.state.value.records))
  {
    AppliedCost(WorkOf(h), writes);
  }

  lemma Installation(h: Host, writes: seq<Write>, many: nat) returns (t: Host)
    requires h.state.Some? && h.state.value.phase.AccessConfirmed? && many > 2 * |writes| + 2
    ensures t == Served(h, Step(DoDeploy(true, writes, false, true), many))
    ensures t.state.Some? && t.state.value.phase.Closed? && t.state.value.id == h.state.value.id
    ensures t.state.value.previous == h.state.value.previous && t.files == AllChanged(h.files, writes)
    ensures t.log == h.log + [Closing(h.state.value.id, t.files)]
  {
    var begun := Phased(h.(budget := many), Installing);
    InstalledFacts(begun, writes);
    t := AfterInstall(Worked(begun, AllApplied(WorkOf(begun), writes)), false, true).0;
  }

  /** A deployment in which nothing fails and nobody dies: prepare, confirm, deploy. */
  lemma SmoothDeployment(h: Host, id: nat, access: seq<Write>, writes: seq<Write>, many: nat)
    returns (a: Host, b: Host, t: Host)
    requires (h.state.Some? ==> Settled(h.state.value.phase)) && many > 3 * |access| + 2 * |writes| + 6
    ensures a == Served(h, Step(DoPrepare(id, false, false, access, false, true), many))
    ensures b == Served(a, Step(DoConfirm(true), 2))
    ensures t == Served(b, Step(DoDeploy(true, writes, false, true), many))
    ensures t.state.Some? && t.state.value.phase.Closed? && t.state.value.id == id
    ensures t.state.value.previous == Replaced(h.state) && t.files == AllChanged(AllChanged(h.files, access), writes)
    ensures t.log == h.log + [Closing(id, t.files)]
  {
    a := Preparation(h, id, access, false, many);
    Confirmation(a);
    b := Phased(a.(budget := 2), AccessConfirmed);
    t := Installation(b, writes, many);
  }

  /** A settled journal and the files agree with the deployments that stand. */
  ghost predicate Stands(initial: Files, h: Host) {
    var standing := Standing(initial, h.log);
    var last := standing[|standing| - 1];
    && (h.state.None? ==> h.files == initial)
    && (h.state.Some? && Settled(h.state.value.phase) ==>
          && h.files == last.files
          && (h.state.value.phase.Closed? ==> last.id == h.state.value.id)
          && (h.state.value.phase.RolledBack? ==> Links(h.state.value.previous, standing, |standing| - 1)))
  }

  /** Over any chain of deployments, deaths, recoveries and rollbacks: whenever the journal says
      `closed` or `rolled-back`, the files are those of the last deployment that closed and was not
      given up, or the files from before the first; and the journal links to that deployment. */
  method Run(initial: Files, steps: seq<Step>) returns (h: Host)
    ensures Leads(initial, steps, h) && Stands(initial, h)
  {
    var host := new Installer(initial);
    LeadsStart(initial);
    assert steps[..0] == [];
    for i := 0 to |steps|
      invariant host.Valid() && fresh(host) && host.initial == initial && Leads(initial, steps[..i], host.Now())
    {
      assert steps[..i + 1] == steps[..i] + [steps[i]];
      Serve(host, steps[i], initial, steps[..i]);
    }
    assert steps[..|steps|] == steps;
    h := host.Now();
  }

  lemma AllBack(records: Records, files: Files, origin: Files)
    requires Faithful(records, files, origin)
    requires forall k :: 0 <= k < |records| ==> At(files, records[k].path) == At(origin, records[k].path)
    ensures files == origin
  {
    forall p ensures At(files, p) == At(origin, p) {
      if Recorded(records, p) {
        var k :| 0 <= k < |records| && records[k].path == p;
        assert At(files, records[k].path) == At(origin, records[k].path);
      }
    }
    SameFiles(files, origin);
  }
}
