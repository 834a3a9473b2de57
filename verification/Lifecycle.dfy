/** The run journal of `lifecycle.py`: one disposable certification lifecycle at a time, started by
    a maintenance slot or a grant, driven to a terminal stage or cleaned up later. Each invocation
    may be cut before any durable write and inside any action of the driver. */
module Lifecycle {
  import opened Options
  import opened Histories

  type RunId = nat
  type Slot = nat

  datatype Stage = Starting | Provisioning | Enrolled | Certifying | Cleaning | CleanupFailed
    | Complete | FailedCleaned | DeferredCleaned

  predicate Terminal(s: Stage) {
    s.Complete? || s.FailedCleaned? || s.DeferredCleaned?
  }

  /** `lifecycle.json`. */
  datatype Journal = Journal(stage: Stage, slot: Slot, certified: bool, failed: bool)

  /** What drivers do, and in which invocation. */
  datatype Event =
    | Started(run: RunId, invocation: nat, slot: Slot, granted: bool)
    | Prepared(run: RunId, invocation: nat)
    | Certified(run: RunId, invocation: nat)
    | Cleaned(run: RunId, invocation: nat)
    | Finished(run: RunId, invocation: nat, stage: Stage)

  /* ---------- the rules of every run ---------- */

  ghost predicate FinishedAfter(log: seq<Event>, j: nat, run: RunId) {
    exists k :: j < k < |log| && log[k].Finished? && log[k].run == run
  }

  /** A driver starts only when every earlier one has finished, and never for a used run. */
  ghost predicate StartsAlone(past: seq<Event>, run: RunId) {
    forall j: nat :: j < |past| && past[j].Started? ==> past[j].run != run && FinishedAfter(past, j, past[j].run)
  }

  /** One invocation started this run and saw it prepared, certified and cleaned, in that order. */
  ghost predicate Earned(past: seq<Event>, run: RunId, n: nat) {
    exists a, b, c, d :: 0 <= a < b < c < d < |past|
      && past[a].Started? && past[a].run == run && past[a].invocation == n
      && past[b] == Prepared(run, n) && past[c] == Certified(run, n) && past[d] == Cleaned(run, n)
  }

  ghost predicate Allowed(past: seq<Event>, e: Event) {
    match e
    case Started(run, _, _, _) => StartsAlone(past, run)
    case Finished(run, n, stage) => Terminal(stage) && (stage.Complete? ==> Earned(past, run, n))
    case _ => true
  }

  ghost predicate Lawful(log: seq<Event>) {
    Obeyed(Allowed, log)
  }

  /** Two drivers without a grant never share a maintenance slot. */
  ghost predicate SlotsOnce(log: seq<Event>) {
    forall i, j :: 0 <= i < j < |log| && log[i].Started? && log[j].Started? && !log[i].granted && !log[j].granted
      ==> log[i].slot != log[j].slot
  }

  /* ---------- durable state ---------- */

  datatype Store = Store(directories: set<RunId>, journals: map<RunId, Journal>, active: Option<RunId>, log: seq<Event>)

  ghost predicate Current(s: Store) {
    && s.journals.Keys <= s.directories
    && (s.active.Some? ==> s.active.value in s.journals)
  }

  ghost predicate Idle(s: Store) {
    s.active.Some? ==> s.active.value in s.journals && Terminal(s.journals[s.active.value].stage)
  }

  /** Every driver ever started has finished, unless it is the active, unfinished run's. */
  ghost predicate Accounted(s: Store) {
    forall j: nat :: j < |s.log| && s.log[j].Started? ==>
      && s.log[j].run in s.directories
      && (FinishedAfter(s.log, j, s.log[j].run) || (s.active == Some(s.log[j].run) && !Idle(s)))
  }

  ghost predicate FinishedAs(log: seq<Event>, run: RunId, stage: Stage) {
    exists i :: 0 <= i < |log| && log[i].Finished? && log[i].run == run && log[i].stage == stage
  }

  /** The journals say that a run has ended exactly as the log does. */
  ghost predicate Recorded(journals: map<RunId, Journal>, log: seq<Event>) {
    && (forall run :: run in journals && Terminal(journals[run].stage) ==> FinishedAs(log, run, journals[run].stage))
    && (forall i :: 0 <= i < |log| && log[i].Finished? ==>
          Terminal(log[i].stage) && log[i].run in journals && journals[log[i].run].stage == log[i].stage)
  }

  ghost predicate Inv(s: Store) {
    Current(s) && Lawful(s.log) && Accounted(s) && Recorded(s.journals, s.log)
  }

  /** What the clock adds: a driver has started only in slots seen so far, and if one has started in
      the present slot, the active run belongs to it. */
  ghost predicate Timely(s: Store, slots: seq<Slot>) {
    && Current(s) && SlotsOnce(s.log)
    && forall j :: 0 <= j < |s.log| && s.log[j].Started? ==>
         && s.log[j].slot in slots
         && (s.log[j].slot == slots[|slots| - 1] ==> s.active.Some? && s.journals[s.active.value].slot == s.log[j].slot)
  }

  /** No slot comes back after a different one. */
  predicate Contiguous(slots: seq<Slot>) {
    forall i, j, k :: 0 <= i < j < k < |slots| && slots[i] == slots[k] ==> slots[j] == slots[i]
  }

  lemma NextSlot(s: Store, slots: seq<Slot>, slot: Slot)
    requires Contiguous(slots + [slot])
    ensures Contiguous(slots)
    ensures Timely(s, slots) ==> Timely(s, slots + [slot])
  {
    var all := slots + [slot];
    forall i, j, k | 0 <= i < j < k < |slots| && slots[i] == slots[k] ensures slots[j] == slots[i] {
      assert all[i] == slots[i] && all[j] == slots[j] && all[k] == slots[k];
    }
    if slot in slots {
      var i :| 0 <= i < |slots| && slots[i] == slot;
      assert all[i] == all[|slots|] && all[|slots| - 1] == slots[|slots| - 1];
    }
  }

  function Save(s: Store, run: RunId, j: Journal): Store {
    s.(journals := s.journals[run := j])
  }

  function Note(s: Store, e: Event): Store {
    s.(log := s.log + [e])
  }

  lemma {:induction false} FinishedLater(log: seq<Event>, e: Event, j: nat, run: RunId)
    requires FinishedAfter(log, j, run) || (j < |log| && e.Finished? && e.run == run)
    ensures FinishedAfter(log + [e], j, run)
  {
    var all := log + [e];
    if FinishedAfter(log, j, run) {
      var k :| j < k < |log| && log[k].Finished? && log[k].run == run;
      assert all[k] == log[k];
    } else {
      assert all[|log|] == e;
    }
  }

  /** An action of the active run's driver. */
  lemma ActInv(s: Store, e: Event, slots: seq<Slot>)
    requires Inv(s) && (e.Prepared? || e.Certified? || e.Cleaned?)
    ensures Inv(Note(s, e))
    ensures Timely(s, slots) ==> Timely(Note(s, e), slots)
  {
    var t := Note(s, e);
    ObeyedNext(Allowed, s.log, e);
    RecordedNext(s.journals, s.log, e);
    forall j: nat | j < |t.log| && t.log[j].Started?
      ensures t.log[j].run in t.directories
      ensures FinishedAfter(t.log, j, t.log[j].run) || (t.active == Some(t.log[j].run) && !Idle(t))
    {
      assert t.log[j] == s.log[j];
      if FinishedAfter(s.log, j, s.log[j].run) { FinishedLater(s.log, e, j, s.log[j].run); }
    }
  }

  /** Journal a further stage of an unfinished active run. */
  lemma SaveInv(s: Store, run: RunId, j: Journal, slots: seq<Slot>)
    requires Inv(s) && s.active == Some(run) && !Idle(s) && !Terminal(j.stage) && j.slot == s.journals[run].slot
    ensures Inv(Save(s, run, j)) && !Idle(Save(s, run, j))
    ensures Timely(s, slots) ==> Timely(Save(s, run, j), slots)
  {
    var t := Save(s, run, j);
    assert t.log == s.log;
  }

  function Closed(s: Store, run: RunId, n: nat, j: Journal): Store {
    Save(Note(s, Finished(run, n, j.stage)), run, j)
  }

  lemma FinishInv(s: Store, run: RunId, n: nat, j: Journal)
    requires Inv(s) && s.active == Some(run) && !Idle(s) && Terminal(j.stage)
    requires j.stage.Complete? ==> Earned(s.log, run, n)
    ensures Inv(Closed(s, run, n, j))
  {
    ObeyedNext(Allowed, s.log, Finished(run, n, j.stage));
    FinishAccounted(s, run, n, j);
    FinishRecorded(s.journals, s.log, run, n, j);
  }

  lemma FinishAccounted(s: Store, run: RunId, n: nat, j: Journal)
    requires Current(s) && Accounted(s) && s.active == Some(run)
    ensures Accounted(Closed(s, run, n, j))
  {
    var e := Finished(run, n, j.stage);
    var t := Closed(s, run, n, j);
    forall i: nat | i < |t.log| && t.log[i].Started?
      ensures t.log[i].run in t.directories && FinishedAfter(t.log, i, t.log[i].run)
    {
      assert t.log[i] == s.log[i];
      FinishedLater(s.log, e, i, s.log[i].run);
    }
  }

  lemma FinishRecorded(journals: map<RunId, Journal>, log: seq<Event>, run: RunId, n: nat, j: Journal)
    requires Recorded(journals, log) && Terminal(j.stage) && run in journals && !Terminal(journals[run].stage)
    ensures Recorded(journals[run := j], log + [Finished(run, n, j.stage)])
  {
    var e := Finished(run, n, j.stage);
    var all := log + [e];
    assert all[|log|] == e;
    forall r | r in journals && Terminal(journals[r].stage) ensures FinishedAs(all, r, journals[r].stage) {
      FinishedAsLater(log, e, r, journals[r].stage);
    }
  }

  lemma FinishedAsLater(log: seq<Event>, e: Event, run: RunId, stage: Stage)
    requires FinishedAs(log, run, stage)
    ensures FinishedAs(log + [e], run, stage)
  {
    var i :| 0 <= i < |log| && log[i].Finished? && log[i].run == run && log[i].stage == stage;
    assert (log + [e])[i] == log[i];
  }

  lemma RecordedNext(journals: map<RunId, Journal>, log: seq<Event>, e: Event)
    requires Recorded(journals, log) && !e.Finished?
    ensures Recorded(journals, log + [e])
  {
    forall r | r in journals && Terminal(journals[r].stage) ensures FinishedAs(log + [e], r, journals[r].stage) {
      FinishedAsLater(log, e, r, journals[r].stage);
    }
  }

  lemma FinishTimely(s: Store, run: RunId, n: nat, j: Journal, slots: seq<Slot>)
    requires Timely(s, slots) && s.active == Some(run) && j.slot == s.journals[run].slot
    ensures Timely(Closed(s, run, n, j), slots)
  {
    var t := Closed(s, run, n, j);
    forall i | 0 <= i < |t.log| && t.log[i].Started? ensures i < |s.log| && t.log[i] == s.log[i] {
    }
  }

  lemma StartInv(s: Store, run: RunId, n: nat, slot: Slot, granted: bool)
    requires Inv(s) && s.active == Some(run) && !Idle(s)
    requires forall j :: 0 <= j < |s.log| && s.log[j].Started? ==> s.log[j].run != run
    ensures Inv(Note(s, Started(run, n, slot, granted)))
  {
    var e := Started(run, n, slot, granted);
    var t := Note(s, e);
    forall j: nat | j < |s.log| && s.log[j].Started? ensures FinishedAfter(s.log, j, s.log[j].run) {
      assert s.log[j].run != run;
    }
    ObeyedNext(Allowed, s.log, e);
    RecordedNext(s.journals, s.log, e);
    forall j: nat | j < |t.log| && t.log[j].Started?
      ensures t.log[j].run in t.directories
      ensures FinishedAfter(t.log, j, t.log[j].run) || (t.active == Some(t.log[j].run) && !Idle(t))
    {
      if j < |s.log| {
        assert t.log[j] == s.log[j];
        FinishedLater(s.log, e, j, s.log[j].run);
      }
    }
  }

  lemma StartTimely(s: Store, run: RunId, n: nat, slot: Slot, granted: bool, slots: seq<Slot>)
    requires Timely(s, slots) && s.active == Some(run) && s.journals[run].slot == slot && Now(slots, slot)
    requires !granted ==> NoneIn(s.log, slot)
    ensures Timely(Note(s, Started(run, n, slot, granted)), slots)
  {
  }

  /** The present slot. */
  predicate Now(slots: seq<Slot>, slot: Slot) {
    slots != [] && slots[|slots| - 1] == slot
  }

  ghost predicate NoneIn(log: seq<Event>, slot: Slot) {
    forall j :: 0 <= j < |log| && log[j].Started? ==> log[j].slot != slot
  }

  /** The journal and the pointer of a new run, its directory being new. */
  lemma BeginInv(s: Store, run: RunId, slot: Slot, slots: seq<Slot>)
    requires Inv(s) && Idle(s) && run !in s.directories
    ensures var made := s.(directories := s.directories + {run});
            var written := Save(made, run, Journal(Starting, slot, false, false));
            var pointed := written.(active := Some(run));
            && Inv(made) && Inv(written) && Inv(pointed) && !Idle(pointed) && Idle(made) && Idle(written)
            && (forall j :: 0 <= j < |pointed.log| && pointed.log[j].Started? ==> pointed.log[j].run != run)
            && (Timely(s, slots) ==> Timely(made, slots) && Timely(written, slots))
            && (Timely(s, slots) && Now(slots, slot) ==> Timely(pointed, slots))
  {
  }

  /* ---------- the driver and its caller ---------- */

  /** What the world does during one invocation: the process dies before its `cut`-th durable
      write; the driver's actions succeed or not; the window is still open after preparation. */
  datatype Env = Env(cut: nat, prepares: bool, stillOpen: bool, certifies: bool, cleans: bool)

  datatype Invocation = Invocation(cleanupOnly: bool, slot: Slot, open: bool, grant: Option<RunId>, token: RunId,
                                   env: Env)

  datatype Reply = Refused | Deferred | AlreadyFinished | NothingToClean | Died | Ended(stage: Stage)

  /* ---------- what one invocation leaves ---------- */

  /** How the driver's half of an invocation ends. */
  datatype Progress = Dead | Failing | Deferring | Going

  function When(b: bool, e: Event): seq<Event> {
    if b then [e] else []
  }

  function Journaling(s: Store, run: RunId, stage: Stage, certified: bool, failed: bool): Store
    requires run in s.journals
  {
    Save(s, run, Journal(stage, s.journals[run].slot, certified, failed))
  }

  /** The directory, the journal, the pointer. */
  function AfterBegin(s: Store, run: RunId, slot: Slot, cut: nat): Store {
    Store(if cut == 0 then s.directories else s.directories + {run},
          if cut <= 1 then s.journals else s.journals[run := Journal(Starting, slot, false, false)],
          if cut <= 2 then s.active else Some(run),
          s.log)
  }

  function Provisioned(env: Env): Progress {
    if env.cut == 5 || (env.cut == 6 && env.prepares) then Dead
    else if !env.prepares then Failing
    else if !env.stillOpen then Deferring else Going
  }

  function AfterProvision(s: Store, run: RunId, n: nat, env: Env): Store
    requires run in s.journals
  {
    var prepared := env.cut != 5 && env.prepares;
    Journaling(s.(log := s.log + When(prepared, Prepared(run, n))), run,
               if prepared && env.cut != 6 then Enrolled else Provisioning, false, env.cut != 5 && !env.prepares)
  }

  function CertifiedAs(env: Env): Progress {
    if env.cut == 7 || env.cut == 8 || (env.cut == 9 && env.certifies) then Dead
    else if !env.certifies then Failing else Going
  }

  function AfterCertification(s: Store, run: RunId, n: nat, env: Env): Store
    requires run in s.journals
  {
    if env.cut == 7 then s
    else
      var certified := env.cut != 8 && env.certifies;
      Journaling(s.(log := s.log + When(certified, Certified(run, n))), run, Certifying,
                 certified && env.cut != 9, env.cut != 8 && !env.certifies)
  }

  function EndStage(p: Progress): Stage {
    match p
    case Going => Complete
    case Deferring => DeferredCleaned
    case _ => FailedCleaned
  }

  function AfterCleanup(s: Store, run: RunId, n: nat, p: Progress, env: Env): Store
    requires run in s.journals
  {
    if env.cut == 10 then s
    else
      var certified, failed := s.journals[run].certified, p.Failing?;
      var cleaning := Journaling(s, run, Cleaning, certified, failed);
      var cleaned := Note(cleaning, Cleaned(run, n));
      if env.cut == 11 then cleaning
      else if !env.cleans then Journaling(cleaning, run, CleanupFailed, certified, failed)
      else if env.cut == 12 then cleaned
      else Closed(cleaned, run, n, cleaning.journals[run].(stage := EndStage(p)))
  }

  function CleanupReply(p: Progress, env: Env): Reply {
    if env.cut == 10 || env.cut == 11 then Died
    else if !env.cleans then Refused
    else if env.cut == 12 then Died else Ended(EndStage(p))
  }

  function Driven(env: Env): Progress {
    if env.cut == 4 then Dead else if Provisioned(env).Going? then CertifiedAs(env) else Provisioned(env)
  }

  function AfterDrive(s: Store, run: RunId, n: nat, slot: Slot, granted: bool, env: Env): Store
    requires run in s.journals
  {
    var started := Note(s, Started(run, n, slot, granted));
    if env.cut == 4 then started
    else
      var provisioned := AfterProvision(started, run, n, env);
      if Provisioned(env).Going? then AfterCertification(provisioned, run, n, env) else provisioned
  }

  function AfterCourse(s: Store, run: RunId, n: nat, slot: Slot, granted: bool, env: Env): (Store, Reply)
    requires run in s.journals
  {
    var driven := AfterDrive(s, run, n, slot, granted, env);
    if Driven(env).Dead? then (driven, Died)
    else (AfterCleanup(driven, run, n, Driven(env), env), CleanupReply(Driven(env), env))
  }

  function AfterFresh(s: Store, run: RunId, n: nat, slot: Slot, granted: bool, env: Env): (Store, Reply) {
    var begun := AfterBegin(s, run, slot, env.cut);
    if env.cut <= 3 then (begun, Died) else AfterCourse(begun, run, n, slot, granted, env)
  }

  predicate Busy(s: Store) {
    s.active.Some? && s.active.value in s.journals && !Terminal(s.journals[s.active.value].stage)
  }

  /** What keeps an invocation from starting a run. */
  function Excuse(s: Store, v: Invocation): Option<Reply> {
    if Busy(s) then Some(Refused)
    else if v.grant.None? && !v.open then Some(Deferred)
    else if s.active.Some? && s.active.value in s.journals
            && (if v.grant.Some? then s.active == v.grant else s.journals[s.active.value].slot == v.slot)
    then Some(AlreadyFinished)
    else if Chosen(v) in s.directories then Some(Refused)
    else None
  }

  /** `execute`, as a function of the store it finds. */
  function Executed(s: Store, n: nat, v: Invocation): (Store, Reply) {
    var env := v.env;
    if v.cleanupOnly then
      if !Busy(s) then (s, NothingToClean)
      else if env.cut == 0 then (s, Died)
      else
        var run := s.active.value;
        var marked := Journaling(s, run, s.journals[run].stage, s.journals[run].certified, true);
        (AfterCleanup(marked, run, n, Failing, env), CleanupReply(Failing, env))
    else if Excuse(s, v).Some? then (s, Excuse(s, v).value)
    else
      AfterFresh(s, Chosen(v), n, v.slot, v.grant.Some?, env)
  }

  ghost predicate Passed(log: seq<Event>, run: RunId, n: nat) {
    exists a, b, c :: 0 <= a < b < c < |log|
      && log[a].Started? && log[a].run == run && log[a].invocation == n
      && log[b] == Prepared(run, n) && log[c] == Certified(run, n)
  }

  lemma PassedNow(before: seq<Event>, run: RunId, n: nat, slot: Slot, granted: bool)
    ensures var log := before + [Started(run, n, slot, granted)] + [Prepared(run, n)] + [Certified(run, n)];
            Passed(log, run, n) && log == before + [Started(run, n, slot, granted), Prepared(run, n), Certified(run, n)]
  {
    var log := before + [Started(run, n, slot, granted)] + [Prepared(run, n)] + [Certified(run, n)];
    var a := |before|;
    assert log[a].Started? && log[a + 1] == Prepared(run, n) && log[a + 2] == Certified(run, n);
  }

  lemma PassedThenCleaned(log: seq<Event>, run: RunId, n: nat)
    requires Passed(log, run, n)
    ensures Earned(log + [Cleaned(run, n)], run, n)
  {
    var a, b, c :| 0 <= a < b < c < |log| && log[a].Started? && log[a].run == run && log[a].invocation == n
      && log[b] == Prepared(run, n) && log[c] == Certified(run, n);
    var all := log + [Cleaned(run, n)];
    assert all[a] == log[a] && all[b] == log[b] && all[c] == log[c] && all[|log|] == Cleaned(run, n);
  }

  class Runs {
    var store: Store
    var invocations: nat
    /** The slots of all invocations so far. */
    ghost var slots: seq<Slot>

    ghost predicate Valid() reads this {
      Inv(store) && (Contiguous(slots) ==> Timely(store, slots))
    }

    ghost predicate Driving(run: RunId) reads this {
      Valid() && store.active == Some(run) && !Idle(store)
    }

    constructor ()
      ensures Valid() && store == Store({}, map[], None, []) && slots == [] && invocations == 0
    {
      store, invocations, slots := Store({}, map[], None, []), 0, [];
    }

    method Journaled(run: RunId, stage: Stage, certified: bool, failed: bool)
      requires Driving(run) && !Terminal(stage)
      modifies this`store
      ensures Driving(run) && store.log == old(store.log)
      ensures store == Save(old(store), run, Journal(stage, old(store).journals[run].slot, certified, failed))
    {
      var j := Journal(stage, store.journals[run].slot, certified, failed);
      SaveInv(store, run, j, slots);
      store := Save(store, run, j);
    }

    method Acted(run: RunId, e: Event)
      requires Driving(run) && (e.Prepared? || e.Certified? || e.Cleaned?)
      modifies this`store
      ensures Driving(run) && store == Note(old(store), e)
    {
      ActInv(store, e, slots);
      store := Note(store, e);
    }

    /** The directory, the journal, the pointer: only then is the run active. */
    method Begin(run: RunId, slot: Slot, cut: nat) returns (alive: bool)
      requires Valid() && Idle(store) && run !in store.directories && Now(slots, slot)
      modifies this`store
      ensures Valid() && store == AfterBegin(old(store), run, slot, cut)
      ensures alive <==> cut > 3
      ensures alive ==> Driving(run) && store.journals[run] == Journal(Starting, slot, false, false)
      ensures alive ==> store.directories == old(store.directories) + {run}
      ensures alive ==> forall j :: 0 <= j < |store.log| && store.log[j].Started? ==> store.log[j].run != run
    {
      BeginInv(store, run, slot, slots);
      if cut == 0 { return false; }
      store := store.(directories := store.directories + {run});
      if cut == 1 { return false; }
      store := Save(store, run, Journal(Starting, slot, false, false));
      if cut == 2 { return false; }
      store := store.(active := Some(run));
      alive := cut > 3;
    }

    method Start(run: RunId, n: nat, slot: Slot, granted: bool)
      requires Driving(run) && store.journals[run].slot == slot
      requires forall j :: 0 <= j < |store.log| && store.log[j].Started? ==> store.log[j].run != run
      requires Now(slots, slot) && (Contiguous(slots) && !granted ==> NoneIn(store.log, slot))
      modifies this`store
      ensures Driving(run) && store == Note(old(store), Started(run, n, slot, granted))
    {
      StartInv(store, run, n, slot, granted);
      if Contiguous(slots) { StartTimely(store, run, n, slot, granted, slots); }
      store := Note(store, Started(run, n, slot, granted));
    }

    /** `driver.prepare` and `driver.certify`; what is left to do is the cleanup. */
    method Drive(run: RunId, n: nat, slot: Slot, granted: bool, env: Env) returns (p: Progress)
      requires Driving(run) && store.journals[run].slot == slot
      requires forall j :: 0 <= j < |store.log| && store.log[j].Started? ==> store.log[j].run != run
      requires Now(slots, slot) && (Contiguous(slots) && !granted ==> NoneIn(store.log, slot))
      modifies this`store
      ensures Driving(run) && store == AfterDrive(old(store), run, n, slot, granted, env) && p == Driven(env)
      ensures old(store.log) <= store.log
      ensures p.Going? ==> Passed(store.log, run, n)
    {
      Start(run, n, slot, granted);
      if env.cut == 4 { return Dead; }
      p := Provision(run, n, env);
      if p.Going? {
        p := Certify(run, n, env);
        if p.Going? { PassedNow(old(store.log), run, n, slot, granted); }
      }
    }

    method Provision(run: RunId, n: nat, env: Env) returns (p: Progress)
      requires Driving(run)
      modifies this`store
      ensures Driving(run) && store == AfterProvision(old(store), run, n, env) && p == Provisioned(env)
    {
      Journaled(run, Provisioning, false, false);
      if env.cut == 5 { return Dead; }
      if !env.prepares {
        Journaled(run, Provisioning, false, true);
        return Failing;
      }
      Acted(run, Prepared(run, n));
      if env.cut == 6 { return Dead; }
      Journaled(run, Enrolled, false, false);
      p := if env.stillOpen then Going else Deferring;
    }

    method Certify(run: RunId, n: nat, env: Env) returns (p: Progress)
      requires Driving(run)
      modifies this`store
      ensures Driving(run) && store == AfterCertification(old(store), run, n, env) && p == CertifiedAs(env)
    {
      if env.cut == 7 { return Dead; }
      Journaled(run, Certifying, false, false);
      if env.cut == 8 { return Dead; }
      if !env.certifies {
        Journaled(run, Certifying, false, true);
        return Failing;
      }
      Acted(run, Certified(run, n));
      if env.cut == 9 { return Dead; }
      Journaled(run, Certifying, true, false);
      p := Going;
    }

    /** The cleanup, and the terminal stage that records what came before it. */
    method CleanUp(run: RunId, n: nat, p: Progress, env: Env) returns (r: Reply)
      requires Driving(run) && !p.Dead?
      requires p.Going? ==> Passed(store.log, run, n)
      modifies this`store
      ensures Valid() && store == AfterCleanup(old(store), run, n, p, env) && r == CleanupReply(p, env)
      ensures old(store.log) <= store.log
    {
      if env.cut == 10 { return Died; }
      var certified := store.journals[run].certified;
      Journaled(run, Cleaning, certified, p.Failing?);
      if env.cut == 11 { return Died; }
      if !env.cleans {
        Journaled(run, CleanupFailed, certified, p.Failing?);
        return Refused;
      }
      r := FinishCleaned(run, n, EndStage(p), env.cut);
    }

    /** The cleanup has succeeded. */
    method FinishCleaned(run: RunId, n: nat, stage: Stage, cut: nat) returns (r: Reply)
      requires Driving(run) && Terminal(stage) && (stage.Complete? ==> Passed(store.log, run, n))
      modifies this`store
      ensures Valid() && r == if cut == 12 then Died else Ended(stage)
      ensures var cleaned := Note(old(store), Cleaned(run, n));
        store == if cut == 12 then cleaned else Closed(cleaned, run, n, old(store).journals[run].(stage := stage))
    {
      if stage.Complete? { PassedThenCleaned(store.log, run, n); }
      Acted(run, Cleaned(run, n));
      if cut == 12 { return Died; }
      r := Finish(run, n, stage);
    }

    method Finish(run: RunId, n: nat, stage: Stage) returns (r: Reply)
      requires Driving(run) && Terminal(stage) && (stage.Complete? ==> Earned(store.log, run, n))
      modifies this`store
      ensures Valid() && r == Ended(stage)
      ensures store == Closed(old(store), run, n, old(store).journals[run].(stage := stage))
    {
      var j := store.journals[run].(stage := stage);
      FinishInv(store, run, n, j);
      if Contiguous(slots) { FinishTimely(store, run, n, j, slots); }
      store := Closed(store, run, n, j);
      r := Ended(stage);
    }

    /** `execute`. */
    method Execute(v: Invocation) returns (r: Reply)
      requires Valid()
      modifies this
      ensures Valid() && old(store.log) <= store.log && slots == old(slots) + [v.slot]
      ensures invocations == old(invocations) + 1
      ensures (store, r) == Executed(old(store), old(invocations), v)
    {
      var n := invocations;
      if Contiguous(slots + [v.slot]) { NextSlot(store, slots, v.slot); }
      invocations, slots := invocations + 1, slots + [v.slot];
      var busy := store.active.Some? && !Terminal(store.journals[store.active.value].stage);
      if v.cleanupOnly {
        if !busy { return NothingToClean; }
        r := Reconcile(store.active.value, n, v.env);
        return;
      }
      if busy { return Refused; }
      if v.grant.None? && !v.open { return Deferred; }
      if store.active.Some? {
        var active := store.journals[store.active.value];
        var done := if v.grant.Some? then store.active == v.grant else active.slot == v.slot;
        if done { return AlreadyFinished; }
      }
      if Chosen(v) in store.directories { return Refused; }
      r := Fresh(Chosen(v), n, v.slot, v.grant.Some?, v.env);
    }

    method Fresh(run: RunId, n: nat, slot: Slot, granted: bool, env: Env) returns (r: Reply)
      requires Valid() && Idle(store) && run !in store.directories && Now(slots, slot)
      requires !granted && store.active.Some? ==> store.journals[store.active.value].slot != slot
      modifies this`store
      ensures Valid() && old(store.log) <= store.log
      ensures (store, r) == AfterFresh(old(store), run, n, slot, granted, env)
    {
      if Contiguous(slots) && !granted { SlotsBehind(store, slots, slot); }
      var alive := Begin(run, slot, env.cut);
      if !alive { return Died; }
      r := DriveAndClean(run, n, slot, granted, env);
    }

    method DriveAndClean(run: RunId, n: nat, slot: Slot, granted: bool, env: Env) returns (r: Reply)
      requires Driving(run) && store.journals[run].slot == slot
      requires forall j :: 0 <= j < |store.log| && store.log[j].Started? ==> store.log[j].run != run
      requires Now(slots, slot) && (Contiguous(slots) && !granted ==> NoneIn(store.log, slot))
      modifies this`store
      ensures Valid() && (store, r) == AfterCourse(old(store), run, n, slot, granted, env)
      ensures old(store.log) <= store.log
    {
      var p := Drive(run, n, slot, granted, env);
      if p.Dead? { return Died; }
      r := CleanUp(run, n, p, env);
    }

    /** `--cleanup-only` on an unfinished run: whatever it had reached, it has failed. */
    method Reconcile(run: RunId, n: nat, env: Env) returns (r: Reply)
      requires Driving(run)
      modifies this`store
      ensures Valid()
      ensures var j := old(store).journals[run];
        var marked := Journaling(old(store), run, j.stage, j.certified, true);
        if env.cut == 0 then store == old(store) && r == Died
        else store == AfterCleanup(marked, run, n, Failing, env) && r == CleanupReply(Failing, env)
    {
      if env.cut == 0 { return Died; }
      Journaled(run, store.journals[run].stage, store.journals[run].certified, true);
      r := CleanUp(run, n, Failing, env);
    }
  }

  lemma SlotsBehind(s: Store, slots: seq<Slot>, slot: Slot)
    requires Timely(s, slots) && Now(slots, slot) && (s.active.Some? ==> s.journals[s.active.value].slot != slot)
    ensures NoneIn(s.log, slot)
  {
  }

  function Chosen(v: Invocation): RunId {
    if v.grant.Some? then v.grant.value else v.token
  }

  /** An invocation that nothing stands in the way of. */
  ghost predicate Smooth(s: Store, v: Invocation) {
    && !v.cleanupOnly && (v.grant.Some? || v.open) && Chosen(v) !in s.directories
    && Idle(s) && (s.active.Some? ==> s.active.value in s.directories)
    && (s.active.Some? && v.grant.None? ==> s.journals[s.active.value].slot != v.slot)
    && v.env.cut > 20 && v.env.prepares && v.env.stillOpen && v.env.certifies && v.env.cleans
  }

  /** It runs its course, and the journal says so. */
  lemma SmoothCourse(s: Store, n: nat, v: Invocation)
    requires Smooth(s, v)
    ensures var (t, r) := Executed(s, n, v);
      && r == Ended(Complete) && t.log == s.log + Course(Chosen(v), n, v.slot, v.grant.Some?)
      && t.active == Some(Chosen(v)) && Chosen(v) in t.journals
      && t.journals[Chosen(v)] == Journal(Complete, v.slot, true, false)
      && t.directories == s.directories + {Chosen(v)}
  {
    assert Excuse(s, v).None?;
  }

  /** The active run is the granted one, or of the present slot. */
  predicate Over(s: Store, v: Invocation) {
    && s.active.Some? && s.active.value in s.journals
    && (v.grant == s.active || (v.grant.None? && s.journals[s.active.value].slot == v.slot))
  }

  /** Nothing keeps the invocation from starting a run of its own. */
  predicate MayStart(s: Store, v: Invocation) {
    && !v.cleanupOnly && !Busy(s) && (v.grant.Some? || v.open) && !Over(s, v) && Chosen(v) !in s.directories
  }

  predicate Outlives(env: Env, cuts: set<nat>) {
    env.cut !in cuts && env.cut !in {10, 11, 12}
  }

  /** Which answer an invocation gives, and when. */
  lemma Answers(s: Store, n: nat, v: Invocation)
    ensures var r, e := Executed(s, n, v).1, v.env;
      && (r.NothingToClean? <==> v.cleanupOnly && !Busy(s))
      && (r.Deferred? <==> !v.cleanupOnly && !Busy(s) && v.grant.None? && !v.open)
      && (r.AlreadyFinished? <==> !v.cleanupOnly && !Busy(s) && (v.grant.Some? || v.open) && Over(s, v))
      && (r == Ended(Complete) <==>
            MayStart(s, v) && e.prepares && e.stillOpen && e.certifies && e.cleans && e.cut > 12)
      && (r == Ended(DeferredCleaned) <==>
            MayStart(s, v) && e.prepares && !e.stillOpen && e.cleans && Outlives(e, {0, 1, 2, 3, 4, 5, 6}))
      && (r == Ended(FailedCleaned) <==>
            || (v.cleanupOnly && Busy(s) && e.cleans && Outlives(e, {0}))
            || (MayStart(s, v) && !e.prepares && e.cleans && Outlives(e, {0, 1, 2, 3, 4, 5}))
            || (MayStart(s, v) && e.prepares && e.stillOpen && !e.certifies && e.cleans
                && Outlives(e, {0, 1, 2, 3, 4, 5, 6, 7, 8})))
      && (!v.cleanupOnly && !MayStart(s, v) ==> Executed(s, n, v).0 == s && !r.Died? && !r.Ended?)
      && (r.Refused? && (v.cleanupOnly || MayStart(s, v)) ==> !e.cleans)
  {
  }

  /** The stage journaled before the `cut`-th write of an invocation that goes well. */
  function StageAt(cut: nat): Stage {
    if cut <= 4 then Starting
    else if cut <= 6 then Provisioning
    else if cut == 7 then Enrolled
    else if cut <= 10 then Certifying
    else if cut <= 12 then Cleaning else Complete
  }

  /** How many of the five events have happened by then. */
  function EventsAt(cut: nat): nat {
    if cut <= 3 then 0 else if cut <= 5 then 1 else if cut <= 8 then 2 else if cut <= 11 then 3
    else if cut == 12 then 4 else 5
  }

  predicate GoesWell(s: Store, v: Invocation) {
    MayStart(s, v) && v.env.prepares && v.env.stillOpen && v.env.certifies && v.env.cleans
  }

  lemma DriveReaches(s: Store, run: RunId, n: nat, slot: Slot, granted: bool, env: Env)
    requires run in s.journals && s.journals[run] == Journal(Starting, slot, false, false)
    requires env.cut > 3 && env.prepares && env.stillOpen && env.certifies
    ensures var t := AfterDrive(s, run, n, slot, granted, env);
      && t.directories == s.directories && t.active == s.active && run in t.journals
      && t.journals[run] == Journal(if env.cut <= 9 then StageAt(env.cut) else Certifying, slot, env.cut >= 10, false)
      && (Driven(env).Dead? <==> env.cut <= 9) && (!Driven(env).Dead? ==> Driven(env).Going?)
  {
  }

  lemma CleanupReaches(s: Store, run: RunId, n: nat, env: Env)
    requires run in s.journals && env.cut > 9 && env.cleans
    ensures var t := AfterCleanup(s, run, n, Going, env);
      && t.directories == s.directories && t.active == s.active && run in t.journals
      && t.journals[run] == if env.cut == 10 then s.journals[run]
                            else Journal(StageAt(env.cut), s.journals[run].slot, s.journals[run].certified, false)
  {
  }

  /** Wherever an invocation that goes well dies: directory, journal and pointer are there from their
      moment on, and the journal says how far it got. */
  lemma DiesAnywhere(s: Store, n: nat, v: Invocation)
    requires GoesWell(s, v)
    ensures var t, cut, run := Executed(s, n, v).0, v.env.cut, Chosen(v);
      && t.directories == (if cut == 0 then s.directories else s.directories + {run})
      && t.active == (if cut <= 2 then s.active else Some(run))
      && (cut <= 1 ==> t.journals == s.journals)
      && (cut > 1 ==> run in t.journals && t.journals[run] == Journal(StageAt(cut), v.slot, cut >= 10, false))
  {
    var run, begun := Chosen(v), AfterBegin(s, Chosen(v), v.slot, v.env.cut);
    if v.env.cut > 3 {
      DriveReaches(begun, run, n, v.slot, v.grant.Some?, v.env);
      if v.env.cut > 9 { CleanupReaches(AfterDrive(begun, run, n, v.slot, v.grant.Some?, v.env), run, n, v.env); }
    }
  }

  lemma DriveTouches(s: Store, run: RunId, n: nat, slot: Slot, granted: bool, env: Env)
    requires run in s.journals
    ensures AfterDrive(s, run, n, slot, granted, env).journals - {run} == s.journals - {run}
    ensures run in AfterDrive(s, run, n, slot, granted, env).journals
  {
  }

  lemma CleanupTouches(s: Store, run: RunId, n: nat, p: Progress, env: Env)
    requires run in s.journals
    ensures AfterCleanup(s, run, n, p, env).journals - {run} == s.journals - {run}
  {
  }

  /** No invocation touches the journal of any other run. */
  lemma OthersUntouched(s: Store, n: nat, v: Invocation)
    ensures var t := Executed(s, n, v).0;
      var run := if v.cleanupOnly && s.active.Some? then s.active.value else Chosen(v);
      t.journals - {run} == s.journals - {run}
  {
    var env := v.env;
    if v.cleanupOnly {
      if Busy(s) {
        var run := s.active.value;
        var marked := Journaling(s, run, s.journals[run].stage, s.journals[run].certified, true);
        CleanupTouches(marked, run, n, Failing, env);
      }
    } else if Excuse(s, v).None? && env.cut > 3 {
      var run, begun := Chosen(v), AfterBegin(s, Chosen(v), v.slot, env.cut);
      DriveTouches(begun, run, n, v.slot, v.grant.Some?, env);
      CleanupTouches(AfterDrive(begun, run, n, v.slot, v.grant.Some?, env), run, n, Driven(env), env);
    }
  }

  /** The events are a first part of the course. */
  lemma LogsAnywhere(s: Store, n: nat, v: Invocation)
    requires GoesWell(s, v)
    ensures Executed(s, n, v).0.log == s.log + Course(Chosen(v), n, v.slot, v.grant.Some?)[..EventsAt(v.env.cut)]
  {
    CourseParts(Course(Chosen(v), n, v.slot, v.grant.Some?));
  }

  lemma CourseParts(course: seq<Event>)
    requires |course| == 5
    ensures course[..0] == [] && course[..1] == [course[0]] && course[..2] == [course[0]] + [course[1]]
    ensures course[..3] == course[..2] + [course[2]] && course[..4] == course[..3] + [course[3]]
    ensures course[..5] == course[..4] + [course[4]]
  {
  }

  /** A failing preparation or certification is journaled as a failure before anything is cleaned, and
      stays one to the end. */
  lemma FailsForGood(s: Store, n: nat, v: Invocation)
    requires MayStart(s, v) && v.env.cut > 8 && (!v.env.prepares || (v.env.stillOpen && !v.env.certifies))
    ensures var t, run, e := Executed(s, n, v).0, Chosen(v), v.env;
      && run in t.journals && t.active == Some(run)
      && t.journals[run] == Journal(
           if e.cut == 10 then (if e.prepares then Certifying else Provisioning)
           else if e.cut == 11 then Cleaning
           else if !e.cleans then CleanupFailed
           else if e.cut == 12 then Cleaning else FailedCleaned,
           v.slot, false, true)
  {
  }

  /** `--cleanup-only` ends every interrupted run as failed, if the cleanup succeeds and the process
      lives, and never as anything else. */
  lemma CleanupOnlyEnds(s: Store, n: nat, v: Invocation)
    requires v.cleanupOnly && Busy(s)
    ensures var (t, r) := Executed(s, n, v);
      && (r.Ended? <==> v.env.cleans && v.env.cut !in {0, 10, 11, 12})
      && (r.Ended? ==> r.stage.FailedCleaned? && t.journals[s.active.value].stage.FailedCleaned? && !Busy(t))
      && (!r.Ended? ==> Busy(t) && t.active == s.active)
  {
  }

  function Course(run: RunId, n: nat, slot: Slot, granted: bool): seq<Event> {
    [Started(run, n, slot, granted), Prepared(run, n), Certified(run, n), Cleaned(run, n), Finished(run, n, Complete)]
  }

  /* ---------- whole histories ---------- */

  function Slots(invocations: seq<Invocation>): seq<Slot> {
    seq(|invocations|, i requires 0 <= i < |invocations| => invocations[i].slot)
  }

  function Ran(invocations: seq<Invocation>): Store {
    if invocations == [] then Store({}, map[], None, [])
    else
      var n := |invocations| - 1;
      Executed(Ran(invocations[..n]), n, invocations[n]).0
  }

  /** Any invocations, each cut anywhere. The journals end where the log does. */
  method Run(invocations: seq<Invocation>) returns (log: seq<Event>, journals: map<RunId, Journal>)
    ensures log == Ran(invocations).log && journals == Ran(invocations).journals
    ensures Lawful(log) && Recorded(journals, log)
    ensures Contiguous(Slots(invocations)) ==> SlotsOnce(log)
  {
    var runs := new Runs();
    for i := 0 to |invocations|
      invariant runs.Valid() && fresh(runs) && runs.slots == Slots(invocations[..i])
      invariant runs.invocations == i && runs.store == Ran(invocations[..i])
    {
      assert invocations[..i + 1][..i] == invocations[..i];
      assert Slots(invocations[..i + 1]) == Slots(invocations[..i]) + [invocations[i].slot];
      var _ := runs.Execute(invocations[i]);
    }
    assert invocations[..|invocations|] == invocations;
    log, journals := runs.store.log, runs.store.journals;
  }

  /** A clock that is never turned back. */
  lemma SteadyIsContiguous(slots: seq<Slot>)
    requires forall i, j :: 0 <= i < j < |slots| ==> slots[i] <= slots[j]
    ensures Contiguous(slots)
  {
  }

  /** A journal that says `complete` was earned. */
  lemma CompleteJournalIsEarned(log: seq<Event>, journals: map<RunId, Journal>, run: RunId)
    requires Lawful(log) && Recorded(journals, log) && run in journals && journals[run].stage.Complete?
    ensures exists i: nat, n: nat :: i <= |log| && Earned(log[..i], run, n)
  {
    assert FinishedAs(log, run, Complete);
    var i :| 0 <= i < |log| && log[i].Finished? && log[i].run == run && log[i].stage == Complete;
    CompleteIsEarned(log, i);
  }

  /** Drivers never overlap, and no run, granted or not, has a second one. */
  lemma DriversApart(log: seq<Event>, i: nat, j: nat)
    requires Lawful(log) && i < j < |log| && log[i].Started? && log[j].Started?
    ensures log[i].run != log[j].run
    ensures exists k :: i < k < j && log[k].Finished? && log[k].run == log[i].run
  {
    ObeyedAt(Allowed, log, j);
    assert log[..j][i] == log[i];
    assert FinishedAfter(log[..j], i, log[i].run);
    var k :| i < k < j && log[..j][k].Finished? && log[..j][k].run == log[i].run;
    assert log[k] == log[..j][k];
  }

  /** A complete lifecycle was started, prepared, certified and cleaned by one invocation. */
  lemma CompleteIsEarned(log: seq<Event>, i: nat)
    requires Lawful(log) && i < |log| && log[i].Finished? && log[i].stage.Complete?
    ensures Earned(log[..i], log[i].run, log[i].invocation)
  {
    ObeyedAt(Allowed, log, i);
  }

  /** An unhindered invocation, or one outside the window. */
  function Try(slot: Slot, token: RunId, open: bool): Invocation {
    Invocation(false, slot, open, None, token, Env(21, true, true, true, true))
  }

  /** The most demanding run over a list of slots: two visits to the slot that comes back, and one to
      a slot in between. It serves every slot once if and only if no slot comes back after a
      different one. */
  method MostDemanding(slots: seq<Slot>) returns (invocations: seq<Invocation>, log: seq<Event>)
    ensures Slots(invocations) == slots && Lawful(log)
    ensures SlotsOnce(log) <==> Contiguous(slots)
  {
    var i, j, k := Returning(slots);
    invocations := seq(|slots|, n requires 0 <= n < |slots| => Try(slots[n], n, i < j && n in {i, j, k}));
    if i < j {
      log := Revisit(slots, invocations, i, j, k);
    } else {
      var journals;
      log, journals := Run(invocations);
    }
  }

  method Revisit(slots: seq<Slot>, invocations: seq<Invocation>, i: nat, j: nat, k: nat) returns (log: seq<Event>)
    requires i < j < k < |slots| == |invocations| && slots[i] == slots[k] && slots[j] != slots[i]
    requires forall n :: 0 <= n < |slots| ==> invocations[n] == Try(slots[n], n, n == i || n == j || n == k)
    ensures Lawful(log) && !SlotsOnce(log)
  {
    var runs := new Runs();
    for n := 0 to |slots|
      invariant runs.Valid() && fresh(runs) && Toured(runs.store, slots, i, j, k, n)
    {
      ghost var was, m := runs.store, runs.invocations;
      TourIsSmooth(was, slots, i, j, k, n);
      if n == i || n == j || n == k { SmoothCourse(was, m, invocations[n]); }
      var _ := runs.Execute(invocations[n]);
      TourNext(was, runs.store, slots, i, j, k, n, m);
    }
    log := runs.store.log;
  }

  predicate Begins(e: Event, slot: Slot) {
    e.Started? && e.slot == slot && !e.granted
  }

  /** Where the store is before the `n`-th invocation: untouched, in the returning slot, in the slot in
      between, or with the returning slot served twice. */
  ghost predicate Toured(s: Store, slots: seq<Slot>, i: nat, j: nat, k: nat, n: nat)
    requires i < j < k < |slots|
  {
    if n <= i then s == Store({}, map[], None, [])
    else if n <= j then AtSlot(s, i, slots[i], {i}) && Begins(s.log[0], slots[i])
    else if n <= k then AtSlot(s, j, slots[j], {i, j}) && Begins(s.log[0], slots[i])
    else !SlotsOnce(s.log)
  }

  /** The active run has ended in this slot. */
  ghost predicate AtSlot(s: Store, run: RunId, slot: Slot, used: set<RunId>) {
    && s.directories == used && s.active == Some(run) && run in s.journals && run in used
    && s.journals[run].slot == slot && Terminal(s.journals[run].stage) && s.log != []
  }

  lemma TourIsSmooth(s: Store, slots: seq<Slot>, i: nat, j: nat, k: nat, n: nat)
    requires i < j < k < |slots| && n < |slots| && slots[i] == slots[k] && slots[j] != slots[i]
    requires Toured(s, slots, i, j, k, n)
    ensures n == i || n == j || n == k ==> Smooth(s, Try(slots[n], n, true))
  {
  }

  lemma TourNext(s: Store, t: Store, slots: seq<Slot>, i: nat, j: nat, k: nat, n: nat, m: nat)
    requires i < j < k < |slots| && n < |slots| && slots[i] == slots[k] && slots[j] != slots[i]
    requires Toured(s, slots, i, j, k, n)
    requires n != i && n != j && n != k ==> t == s
    requires n == i || n == j || n == k ==> t.log == s.log + Course(n, m, slots[n], false)
    requires n == i || n == j || n == k ==> AtSlot(t, n, slots[n], s.directories + {n})
    ensures Toured(t, slots, i, j, k, n + 1)
  {
    if n == i || n == j || n == k {
      assert t.log[|s.log|] == Started(n, m, slots[n], false);
      assert s.log != [] ==> t.log[0] == s.log[0];
    }
    if n == k { ServedTwice(t.log, |s.log|, slots[i]); }
  }

  lemma ServedTwice(log: seq<Event>, b: nat, slot: Slot)
    requires 0 < b < |log| && Begins(log[0], slot) && Begins(log[b], slot)
    ensures !SlotsOnce(log)
  {
  }

  /** Three indices that show a slot coming back, or zeros. */
  method Returning(slots: seq<Slot>) returns (i: nat, j: nat, k: nat)
    ensures if Contiguous(slots) then i == j == k == 0
            else i < j < k < |slots| && slots[i] == slots[k] && slots[j] != slots[i]
  {
    if Contiguous(slots) { return 0, 0, 0; }
    i, j, k :| 0 <= i < j < k < |slots| && slots[i] == slots[k] && slots[j] != slots[i];
  }

  /** With a clock turned back a slot is served twice. */
  method ClockTurnedBack() returns (log: seq<Event>)
    ensures Lawful(log) && !SlotsOnce(log)
  {
    var slots := [1, 2, 1];
    assert slots[0] == slots[2] != slots[1];
    var invocations;
    invocations, log := MostDemanding(slots);
  }
}
