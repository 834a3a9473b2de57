/** The journaled deployment of one release: the phase journal of `host.py` and the one-shot
    offline package replay of `offline.py`. Every operation may be cut before any durable
    write, the machine may reboot between operations, commands may fail, and other parties may
    change packages, boot images and units. A digest stands for the content it was taken of. */
module Deployment {
  import opened Options
  import opened Phases

  type Digest = int
  type Boot = nat

  /** The journal: `phase`, `snapshot_sha256`, `boot_before`, `runtime_boot_before`. */
  datatype Journal = Journal(phase: Phase, snapshot: Digest, bootBefore: Boot, runtimeBoot: Boot)

  datatype Status = Staging | Staged | Running | Complete | Failed

  /** The record of an offline replay. */
  datatype Offline = Offline(status: Status, bootBefore: Boot, updateBoot: Option<Boot>, expected: Digest,
                             image: Digest)

  /** What has durably happened, each in some boot. */
  datatype Event =
    | Snapped(snapshot: Digest, boot: Boot)
    | Acknowledged(snapshot: Digest, boot: Boot)
    | Saved(phase: Phase, boot: Boot)
    | Hashed(image: Digest, boot: Boot)
    | Recorded(status: Status, boot: Boot)
    | Replayed(boot: Boot)
    | Selected(inventory: Digest, image: Digest, boot: Boot)
    | Accepted(boot: Boot)

  /* ---------- the release ---------- */

  /** The manifest's `baseline_sha256`, the predicted inventory and the signed image. */
  datatype Release = Release(baseline: Digest, expected: Digest, image: Digest)

  /** Where in the log the first `n` milestones are. */
  datatype Trail = Trail(n: nat, snap: nat, ack: nat, cred: nat, hash: nat, staged: nat, started: nat,
                         complete: nat, first: nat, second: nat, spoiled: Option<nat>)

  /** The milestones of a deployment happened in order: a snapshot, the acknowledgement of that
      same snapshot, a credential, a staged replay of a hashed image, the replay in a later boot,
      its completion in that boot, an acceptance in a later boot and another in a still later one. */
  ghost predicate Milestones(log: seq<Event>, t: Trail) {
    && (t.n >= 1 ==> t.snap < |log| && log[t.snap].Snapped?)
    && (t.n >= 2 ==> t.snap < t.ack < |log| && log[t.ack].Acknowledged? && log[t.ack].snapshot == log[t.snap].snapshot)
    && (t.n >= 3 ==> t.ack < t.cred < |log| && log[t.cred] == Saved(CredentialReady, log[t.cred].boot))
    && (t.n >= 4 ==> t.cred < t.hash < t.staged < |log| && log[t.hash].Hashed? && log[t.hash].boot == log[t.staged].boot
                     && log[t.staged] == Recorded(Staged, log[t.staged].boot))
    && (t.n >= 5 ==> t.staged < t.started < |log| && log[t.started].Replayed?
                     && log[t.staged].boot < log[t.started].boot)
    && (t.n >= 6 ==> t.started < t.complete < |log| && log[t.complete] == Recorded(Complete, log[t.started].boot))
    && (t.n >= 7 ==> t.complete < t.first < |log| && log[t.first].Accepted? && log[t.complete].boot < log[t.first].boot)
    && (t.n >= 8 ==> t.first < t.second < |log| && log[t.second].Accepted? && log[t.first].boot < log[t.second].boot)
  }

  /** The rule the `i`-th event obeys: a release is closed only after all milestones, a replay
      is the one milestone of its kind, the new image is selected only during that replay, with
      the predicted packages and the image hashed when it was staged, and once the journal is
      rolled back nothing but further rollback is saved and no acceptance counts. */
  ghost predicate Lawful(r: Release, log: seq<Event>, t: Trail, i: nat)
    requires Milestones(log, t) && i < |log|
  {
    && (log[i].Replayed? ==> t.n >= 5 && i == t.started)
    && (log[i].Selected? ==> t.n >= 5 && t.started < i && log[i].boot == log[t.started].boot
                             && log[i].inventory == r.expected && log[i].image == log[t.hash].image)
    && (log[i].Accepted? ==> t.n >= 6 && t.complete < i)
    && (log[i].Saved? && log[i].phase.Closed? ==> t.n >= 8 && t.second < i)
    && (log[i].Saved? && Setback(log[i].phase) ==> t.spoiled.Some? && t.spoiled.value <= i)
    && (log[i].Accepted? || (log[i].Saved? && !Setback(log[i].phase)) ==> t.spoiled.None? || i < t.spoiled.value)
  }

  ghost predicate AllLawful(r: Release, log: seq<Event>, t: Trail) {
    && Milestones(log, t)
    && (t.spoiled.Some? ==> t.spoiled.value < |log| && log[t.spoiled.value].Saved?
                            && Setback(log[t.spoiled.value].phase))
    && forall i: nat :: i < |log| ==> Lawful(r, log, t, i)
  }

  /** `u` knows all that `t` knows. */
  predicate Extends(t: Trail, u: Trail) {
    && t.n <= u.n && (t.n >= 4 ==> t.hash == u.hash) && (t.n >= 5 ==> t.started == u.started)
    && (t.n >= 6 ==> t.complete == u.complete) && (t.n >= 8 ==> t.second == u.second)
  }

  /** Append an event and what it adds to the trail. */
  lemma Grow(r: Release, log: seq<Event>, t: Trail, e: Event, u: Trail)
    requires AllLawful(r, log, t) && Extends(t, u) && Milestones(log + [e], u)
    requires u.spoiled == t.spoiled || (t.spoiled.None? && u.spoiled == Some(|log|) && e.Saved? && Setback(e.phase))
    requires Lawful(r, log + [e], u, |log|)
    ensures AllLawful(r, log + [e], u)
  {
    var all := log + [e];
    forall i: nat | i < |all| ensures Lawful(r, all, u, i) {
      if i < |log| {
        assert Lawful(r, log, t, i) && all[i] == log[i];
      }
    }
  }

  /* ---------- durable state ---------- */

  datatype Backup = NoBackup | Partial | Taken
  datatype Marker = NoMarker | Ours | Foreign
  datatype Unit = NoUnit | OurUnit | OtherUnit

  /** The two journals, the boot, and what has happened so far. */
  datatype Core = Core(journal: Journal, record: Option<Offline>, boot: Boot, log: seq<Event>, trail: Trail)

  ghost predicate JournalTied(s: Core) {
    var t, log, j := s.trail, s.log, s.journal;
    && Milestones(log, t)
    && (!Setback(j.phase) ==> t.spoiled.None?)
    && match j.phase
       case New => t.n == 0
       case SnapshotCreating => t.n == 0
       case SnapshotReady => t.n == 1 && log[t.snap].snapshot == j.snapshot
       case BackupVerified => t.n == 2 && log[t.snap].snapshot == j.snapshot
       case CredentialReady => t.n == 3 && s.record.None?
       case PackageStaging => 3 <= t.n <= 6
       case RebootPending => 4 <= t.n <= 6
       case RuntimePending => t.n == 6 && log[t.complete].boot < s.boot
       case RuntimeInstalled => t.n == 6 && log[t.complete].boot < s.boot
       case PersistenceReboot => t.n == 7 && log[t.first].boot == j.runtimeBoot <= s.boot
       case Closed => t.n == 8
       case _ => true
  }

  ghost predicate RecordTied(r: Release, s: Core) {
    var t, log := s.trail, s.log;
    && Milestones(log, t)
    && (s.record.None? ==> t.n <= 3)
    && (s.record.Some? ==>
          var o := s.record.value;
          && o.expected == r.expected && o.bootBefore <= s.boot
          && match o.status
             case Staging => t.n == 3 && t.cred < t.hash < |log| && log[t.hash] == Hashed(o.image, o.bootBefore)
             case Staged => t.n == 4 && log[t.staged].boot == o.bootBefore && log[t.hash].image == o.image
             case Running => RunningTied(s)
             case Failed => RunningTied(s)
             case Complete => t.n >= 6 && o.updateBoot == Some(log[t.complete].boot) && log[t.complete].boot <= s.boot)
  }

  ghost predicate RunningTied(s: Core) {
    var t, log := s.trail, s.log;
    && Milestones(log, t) && s.record.Some? && 4 <= t.n <= 5 && s.record.value.updateBoot.Some?
    && log[t.staged].boot < s.record.value.updateBoot.value <= s.boot && log[t.hash].image == s.record.value.image
    && (t.n == 5 ==> log[t.started].boot == s.record.value.updateBoot.value)
  }

  ghost predicate Inv(r: Release, s: Core) {
    AllLawful(r, s.log, s.trail) && JournalTied(s) && RecordTied(r, s)
  }

  function Note(s: Core, e: Event): Core {
    s.(log := s.log + [e])
  }

  function Save(s: Core, j: Journal): Core {
    s.(journal := j, log := s.log + [Saved(j.phase, s.boot)])
  }

  function Record(s: Core, o: Offline): Core {
    s.(record := Some(o), log := s.log + [Recorded(o.status, s.boot)])
  }

  /** One more event that places no milestone. */
  lemma NoteInv(r: Release, s: Core, e: Event)
    requires Inv(r, s)
    requires Milestones(s.log + [e], s.trail) ==> Lawful(r, s.log + [e], s.trail, |s.log|)
    ensures Inv(r, Note(s, e))
  {
    Grow(r, s.log, s.trail, e, s.trail);
  }

  /** An event and the journal entry that makes a milestone of it. */
  lemma PlaceInv(r: Release, s: Core, e: Event, j: Journal, t: Trail)
    requires Inv(r, s) && !Setback(j.phase) && s.trail.spoiled.None? && t.spoiled.None?
    requires e.Snapped? || e.Acknowledged? || (e.Accepted? && s.trail.n >= 6)
    requires Extends(s.trail, t) && JournalTied(Note(s, e).(journal := j, trail := t))
    requires RecordTied(r, Note(s, e).(trail := t))
    ensures Inv(r, Save(Note(s, e), j).(trail := t))
  {
    NoteInv(r, s, e);
    Grow(r, s.log + [e], s.trail, Saved(j.phase, s.boot), t);
  }

  lemma SetbackInv(r: Release, s: Core, j: Journal, t: Trail)
    requires Inv(r, s) && Setback(j.phase)
    requires t == if s.trail.spoiled.None? then s.trail.(spoiled := Some(|s.log|)) else s.trail
    ensures Inv(r, Save(s, j).(trail := t))
  {
    Grow(r, s.log, s.trail, Saved(j.phase, s.boot), t);
  }

  /** A replay was started in the new part of the log. */
  ghost predicate Starts(before: seq<Event>, after: seq<Event>) {
    exists i :: |before| <= i < |after| && after[i].Replayed?
  }

  /** Where the replays of a lawful log are. */
  lemma OneReplay(r: Release, log: seq<Event>, t: Trail)
    requires AllLawful(r, log, t)
    ensures forall i: nat :: i < |log| ==> (log[i].Replayed? <==> t.n >= 5 && i == t.started)
  {
    forall i: nat | i < |log| ensures log[i].Replayed? <==> t.n >= 5 && i == t.started {
      assert Lawful(r, log, t, i);
    }
  }

  datatype Command = Preflight | Capture | Guard | Tar | Encrypt | Health | InstallBoot | VerifyPackages | AnalyzeUnit
    | RunReplay | SetDefault | InstallRuntime | Acceptance | Restart
    | ArmReboot

  /** What the world does during one operation: the process dies before its `cut`-th durable
      write; the named commands fail; a replay leaves this package inventory. */
  datatype Env = Env(cut: nat, failing: set<Command>, inventory: Digest)

  /** Nothing fails and nothing dies. */
  predicate Good(e: Env) {
    e.cut > 9 && e.failing == {}
  }

  function SetbackOf(e: Env): Phase {
    if Restart in e.failing then RecoveryRequired else RolledBack
  }

  /** The phases in which the backup guard rolls back. */
  predicate Guarded(p: Phase) {
    p.SnapshotCreating? || p.SnapshotReady? || p.BackupVerified? || p.CredentialReady?
  }

  datatype Reply = Ok(phase: Phase) | Refused | Died

  class Host {
    const release: Release
    var core: Core
    var backup: Backup
    /** The snapshot file is there. */
    var snapshot: bool
    var marker: Marker
    var unit: Unit
    var link: bool
    var inventory: Digest
    var image: Option<Digest>
    var stale: Option<Journal>

    /** Nothing begins before the application backup is complete. */
    ghost predicate Valid() reads this {
      Inv(release, core) && (core.journal.phase.New? || backup.Taken?)
    }

    /** No update is staged by anyone. */
    predicate Clear() reads this {
      marker.NoMarker? && unit.NoUnit? && !link
    }

    /** The replay is complete, in an earlier boot. */
    predicate ReplayDone() reads this {
      && inventory == release.expected && core.record.Some? && core.record.value.status.Complete?
      && core.record.value.updateBoot != Some(core.boot)
    }

    /** The replay is complete, in this boot. */
    predicate ReplayedNow() reads this {
      && inventory == release.expected && core.record.Some? && core.record.value.status.Complete?
      && core.record.value.updateBoot == Some(core.boot)
    }

    predicate CanSnapshot() reads this {
      core.journal.phase.New? && backup.NoBackup? && !snapshot
    }

    /** The next boot will replay, whatever the journal says. */
    predicate ReplayWaiting() reads this {
      && core.record.Some? && core.record.value.status.Staged?
      && core.record.value.bootBefore <= core.boot && core.record.value.expected == release.expected
      && marker.Ours? && unit.OurUnit? && link && image == Some(core.record.value.image)
    }

    /** The release is waiting for that boot. */
    predicate ReplayStaged() reads this {
      ReplayWaiting() && core.journal.phase.RebootPending? && core.journal.bootBefore == core.record.value.bootBefore
    }

    /** The replay will start: this transaction is selected and staged in another boot, the packages
        are the baseline and verify, and the process lives long enough. */
    predicate ReplayDue(env: Env) reads this {
      && marker.Ours? && core.record.Some? && core.record.value.status.Staged?
      && core.record.value.bootBefore != core.boot
      && inventory == release.baseline && VerifyPackages !in env.failing && env.cut > 3
    }

    /** The host is still in the boot in which it asked for a reboot. */
    predicate Waiting() reads this {
      || (core.journal.phase.RebootPending? && core.boot == core.journal.bootBefore)
      || (core.journal.phase.PersistenceReboot? && core.boot == core.journal.runtimeBoot)
    }

    /** What `advance` finds is what it expects in this phase. */
    predicate Expected() reads this {
      || Waiting() || 7 <= Rank(core.journal.phase) <= 10
      || (core.journal.phase.CredentialReady? && Clear() && inventory == release.baseline)
      || (core.journal.phase.RebootPending? && ReplayDone())
    }

    /** The commands `advance` then depends on. */
    function Needed(): set<Command> reads this {
      if Waiting() then {}
      else match core.journal.phase
        case CredentialReady => {Preflight, InstallBoot, VerifyPackages, AnalyzeUnit, ArmReboot}
        case RebootPending => {Preflight, InstallRuntime, Acceptance, ArmReboot}
        case RuntimePending => {InstallRuntime, Acceptance, ArmReboot}
        case RuntimeInstalled => {Acceptance, ArmReboot}
        case PersistenceReboot => {Health, Acceptance, Preflight}
        case _ => {Health}
    }

    /** The phase it reaches. */
    function Stop(): Phase reads this {
      if Waiting() then core.journal.phase
      else match core.journal.phase
        case CredentialReady => RebootPending
        case RebootPending => PersistenceReboot
        case RuntimePending => PersistenceReboot
        case RuntimeInstalled => PersistenceReboot
        case _ => Closed
    }

    /** A failing command would roll the release back. */
    predicate AtRuntime(env: Env) reads this {
      && !Waiting()
      && (7 <= Rank(core.journal.phase) <= 9
          || (core.journal.phase.RebootPending? && ReplayDone() && Preflight !in env.failing))
    }

    constructor (r: Release, installed: Digest, boot: Boot)
      ensures Valid() && release == r
      ensures core.log == [] && core.journal.phase.New? && backup.NoBackup? && !snapshot && Clear()
      ensures inventory == installed && core.boot == boot
    {
      release, inventory, image, stale := r, installed, None, None;
      backup, snapshot, marker, unit, link := NoBackup, false, NoMarker, NoUnit, false;
      core := Core(Journal(New, 0, 0, 0), None, boot, [], Trail(0, 0, 0, 0, 0, 0, 0, 0, 0, 0, None));
    }

    /* --- single durable writes --- */

    /** Journal a phase that places no milestone. */
    method Enter(j: Journal)
      requires Valid() && backup.Taken? && !Setback(j.phase) && core.trail.spoiled.None?
      requires JournalTied(core.(journal := j))
      modifies this`core
      ensures Valid() && core == Save(old(core), j)
    {
      NoteInv(release, core, Saved(j.phase, core.boot));
      core := Save(core, j);
    }

    method EnterStaging()
      requires Valid() && core.journal.phase.CredentialReady?
      modifies this`core
      ensures Valid() && core == Save(old(core), old(core).journal.(phase := PackageStaging, bootBefore := core.boot))
    {
      Enter(core.journal.(phase := PackageStaging, bootBefore := core.boot));
    }

    method EnterPending()
      requires Valid() && core.journal.phase.PackageStaging? && core.record.Some? && core.record.value.status.Staged?
      modifies this`core
      ensures Valid() && core == Save(old(core), old(core).journal.(phase := RebootPending))
    {
      Enter(core.journal.(phase := RebootPending));
    }

    /** Journal a phase whose milestone the event just noted is. */
    method Place(e: Event, j: Journal, t: Trail)
      requires Valid() && backup.Taken? && !Setback(j.phase) && core.trail.spoiled.None? && t.spoiled.None?
      requires e.Snapped? || e.Acknowledged? || (e.Accepted? && core.trail.n >= 6)
      requires Extends(core.trail, t) && JournalTied(Note(core, e).(journal := j, trail := t))
      requires RecordTied(release, Note(core, e).(trail := t))
      modifies this`core
      ensures Valid() && core == Save(Note(old(core), e), j).(trail := t)
    {
      PlaceInv(release, core, e, j, t);
      core := Save(Note(core, e), j).(trail := t);
    }

    method PlaceSnapshot(taken: Digest)
      requires Valid() && core.journal.phase.SnapshotCreating?
      modifies this`core
      ensures Valid() && core.boot == old(core.boot)
      ensures core.journal == old(core.journal).(phase := SnapshotReady, snapshot := taken)
    {
      Place(Snapped(taken, core.boot), core.journal.(phase := SnapshotReady, snapshot := taken),
            core.trail.(n := 1, snap := |core.log|));
    }

    method PlaceAcknowledgement(snapshot: Digest)
      requires Valid() && (core.journal.phase.SnapshotReady? || core.journal.phase.BackupVerified?)
      requires snapshot == core.journal.snapshot
      modifies this`core
      ensures Valid() && core.boot == old(core.boot)
      ensures core.journal == old(core.journal).(phase := BackupVerified)
    {
      var trail := core.trail.(n := 2, ack := |core.log|);
      Place(Acknowledged(snapshot, core.boot), core.journal.(phase := BackupVerified), trail);
    }

    method PlaceCredential()
      requires Valid() && (core.journal.phase.BackupVerified? || core.journal.phase.CredentialReady?)
      modifies this`core
      ensures Valid() && core.boot == old(core.boot)
      ensures core.journal == old(core.journal).(phase := CredentialReady)
    {
      var t := core.trail.(n := 3, cred := |core.log|);
      Grow(release, core.log, core.trail, Saved(CredentialReady, core.boot), t);
      core := Save(core, core.journal.(phase := CredentialReady)).(trail := t);
    }

    method PlaceFirstAcceptance()
      requires Valid() && core.journal.phase.RuntimeInstalled?
      modifies this`core
      ensures Valid() && core.boot == old(core.boot)
      ensures core.journal == old(core.journal).(phase := PersistenceReboot, runtimeBoot := core.boot)
      ensures core.log == old(core.log) + [Accepted(core.boot)] + [Saved(PersistenceReboot, core.boot)]
    {
      Place(Accepted(core.boot), core.journal.(phase := PersistenceReboot, runtimeBoot := core.boot),
            core.trail.(n := 7, first := |core.log|));
    }

    method PlaceSecondAcceptance()
      requires Valid() && core.journal.phase.PersistenceReboot? && core.boot != core.journal.runtimeBoot
      modifies this`core
      ensures Valid() && core.boot == old(core.boot)
      ensures core.journal == old(core.journal).(phase := Closed)
      ensures core.log == old(core.log) + [Accepted(core.boot)] + [Saved(Closed, core.boot)]
    {
      Place(Accepted(core.boot), core.journal.(phase := Closed), core.trail.(n := 8, second := |core.log|));
    }

    /** An acceptance that nothing durable follows. */
    method AcceptOnly()
      requires Valid() && (core.journal.phase.RuntimeInstalled? || core.journal.phase.PersistenceReboot?)
      modifies this`core
      ensures Valid() && core == Note(old(core), Accepted(core.boot))
    {
      NoteInv(release, core, Accepted(core.boot));
      core := Note(core, Accepted(core.boot));
    }

    method RecordStaging(o: Offline)
      requires Valid() && core.journal.phase.PackageStaging? && core.record.None?
      requires o == Offline(Staging, core.boot, None, release.expected, o.image)
      modifies this`core
      ensures Valid()
      ensures core == old(core).(record := Some(o), log := core.log, trail := core.trail)
    {
      NoteInv(release, core, Hashed(o.image, core.boot));
      core := Note(core, Hashed(o.image, core.boot));
      var t := core.trail.(hash := |core.log| - 1);
      Grow(release, core.log, core.trail, Recorded(Staging, core.boot), t);
      core := Record(core, o).(trail := t);
    }

    method RecordStaged(o: Offline)
      requires Valid() && core.journal.phase.PackageStaging? && core.record == Some(o.(status := Staging))
      requires o.status.Staged? && o.bootBefore == core.boot
      modifies this`core
      ensures Valid()
      ensures core == old(core).(record := Some(o), log := core.log, trail := core.trail)
    {
      var t := core.trail.(n := 4, staged := |core.log|);
      Grow(release, core.log, core.trail, Recorded(Staged, core.boot), t);
      core := Record(core, o).(trail := t);
    }

    method RecordRunning()
      requires Valid() && core.record.Some? && core.record.value.status.Staged?
      requires core.record.value.bootBefore != core.boot
      modifies this`core
      ensures Valid() && core.trail.n == 4
      ensures core == Record(old(core), old(core).record.value.(status := Running, updateBoot := Some(core.boot)))
    {
      NoteInv(release, core, Recorded(Running, core.boot));
      core := Record(core, core.record.value.(status := Running, updateBoot := Some(core.boot)));
    }

    method RecordFailed()
      requires Valid() && core.record.Some? && core.record.value.status.Running?
      modifies this`core
      ensures Valid() && core == Record(old(core), old(core).record.value.(status := Failed))
    {
      NoteInv(release, core, Recorded(Failed, core.boot));
      core := Record(core, core.record.value.(status := Failed));
    }

    method StartReplay()
      requires Valid() && core.record.Some? && core.record.value.status.Running? && core.trail.n == 4
      requires core.record.value.updateBoot == Some(core.boot)
      modifies this`core
      ensures Valid() && core.trail.n == 5
      ensures core == Note(old(core), Replayed(core.boot)).(trail := core.trail)
      ensures core.trail == old(core).trail.(n := 5, started := |old(core).log|)
    {
      var t := core.trail.(n := 5, started := |core.log|);
      Grow(release, core.log, core.trail, Replayed(core.boot), t);
      core := Note(core, Replayed(core.boot)).(trail := t);
    }

    method SelectImage(o: Offline)
      requires Valid() && core.record == Some(o) && o.status.Running? && core.trail.n == 5
      requires inventory == o.expected && image == Some(o.image) && o.updateBoot == Some(core.boot)
      modifies this`core
      ensures Valid() && core == Note(old(core), Selected(inventory, image.value, core.boot))
    {
      NoteInv(release, core, Selected(inventory, image.value, core.boot));
      core := Note(core, Selected(inventory, image.value, core.boot));
    }

    method RecordComplete(o: Offline)
      requires Valid() && core.record == Some(o) && o.status.Running? && core.trail.n == 5
      requires o.updateBoot == Some(core.boot)
      modifies this`core
      ensures Valid()
      ensures core == Record(old(core), o.(status := Complete)).(trail := core.trail)
      ensures core.trail == old(core).trail.(n := 6, complete := |old(core).log|)
    {
      var t := core.trail.(n := 6, complete := |core.log|);
      Grow(release, core.log, core.trail, Recorded(Complete, core.boot), t);
      core := Record(core, o.(status := Complete)).(trail := t);
    }

    /* --- the operations --- */

    /** The application backup is there, or will be. */
    predicate Captures(env: Env) reads this {
      backup.Taken? || (backup.NoBackup? && env.cut > 1 && Capture !in env.failing)
    }

    /** `snapshot_data`. A first attempt that fails after `snapshot-creating` is never repeated. */
    method Snapshot(taken: Digest, env: Env) returns (r: Reply)
      requires Valid()
      modifies this`core, this`backup, this`snapshot
      ensures Valid() && core.boot == old(core.boot)
      ensures r.Ok? && old(core.journal.phase).New? ==>
                core.journal.phase.SnapshotReady? && core.journal.snapshot == taken && backup.Taken? && snapshot
      ensures !r.Ok? && old(core.journal.phase).New? ==>
        || core == old(core)
        || (backup.Taken? && core == Save(old(core), old(core).journal.(phase := SnapshotCreating)))
      ensures !old(core.journal.phase).New? ==> unchanged(this)
      ensures !old(core.journal.phase).New? ==> r == if snapshot then Ok(core.journal.phase) else Refused
      ensures old(core.journal.phase).New? ==>
        (r.Ok? <==>
          {Preflight, Guard, Tar} !! env.failing && old(Captures(env)) && env.cut !in {2, 3, 4} && !old(snapshot))
      ensures old(core.journal.phase).New? ==>
        (core.journal.phase.New? <==> Preflight in env.failing || !old(Captures(env)) || env.cut == 2)
      ensures old(core.journal.phase).New? ==>
        backup == if Preflight in env.failing || !old(backup).NoBackup? || env.cut == 0 then old(backup)
                  else if old(Captures(env)) then Taken else Partial
      ensures old(core.journal.phase).New? ==>
        (snapshot <==> old(snapshot) || (!core.journal.phase.New? && Guard !in env.failing && env.cut != 3))
      ensures SnapshotLeads(old(core.journal.phase), core.journal.phase)
    {
      if !core.journal.phase.New? { return if snapshot then Ok(core.journal.phase) else Refused; }
      if Preflight in env.failing || backup.Partial? { return Refused; }
      if backup.NoBackup? {
        if env.cut == 0 { return Died; }
        backup := Partial;
        if env.cut == 1 || Capture in env.failing { return Died; }
        backup := Taken;
      }
      if env.cut == 2 { return Died; }
      Enter(core.journal.(phase := SnapshotCreating));
      r := TakeSnapshot(taken, env);
    }

    /** The guard is armed, then the snapshot file created, filled and journaled. */
    method TakeSnapshot(taken: Digest, env: Env) returns (r: Reply)
      requires Valid() && core.journal.phase.SnapshotCreating?
      modifies this`core, this`snapshot
      ensures Valid() && core.boot == old(core.boot)
      ensures r.Ok? ==> core.journal.phase.SnapshotReady? && core.journal.snapshot == taken && snapshot
      ensures !r.Ok? ==> core == old(core)
      ensures r.Ok? <==> {Guard, Tar} !! env.failing && env.cut !in {3, 4} && !old(snapshot)
      ensures snapshot <==> old(snapshot) || (Guard !in env.failing && env.cut != 3)
    {
      if Guard in env.failing || snapshot { return Refused; }
      if env.cut == 3 { return Died; }
      snapshot := true;
      if Tar in env.failing { return Refused; }
      if env.cut == 4 { return Died; }
      PlaceSnapshot(taken);
      r := Ok(SnapshotReady);
    }

    /** `acknowledge_backup`. */
    method AcknowledgeBackup(snapshot: Digest, env: Env) returns (r: Reply)
      requires Valid()
      modifies this`core
      ensures Valid() && core.boot == old(core.boot)
      ensures r.Ok? ==> core.journal == old(core.journal).(phase := BackupVerified) && snapshot == core.journal.snapshot
      ensures !r.Ok? ==> unchanged(this)
      ensures r.Ok? <==>
        snapshot == old(core.journal.snapshot) && 2 <= Rank(old(core.journal.phase)) <= 3 && env.cut != 0
      ensures AcknowledgeLeads(old(core.journal.phase), core.journal.phase)
    {
      if !(core.journal.phase.SnapshotReady? || core.journal.phase.BackupVerified?) { return Refused; }
      if snapshot != core.journal.snapshot { return Refused; }
      if env.cut == 0 { return Died; }
      PlaceAcknowledgement(snapshot);
      r := Ok(BackupVerified);
    }

    /** `credential`: the key itself is kept elsewhere. */
    method Credential(env: Env) returns (r: Reply)
      requires Valid()
      modifies this`core
      ensures Valid() && core.boot == old(core.boot)
      ensures r.Ok? ==> core.journal == old(core.journal).(phase := CredentialReady)
      ensures !r.Ok? ==> unchanged(this)
      ensures r.Ok? <==> 3 <= Rank(old(core.journal.phase)) <= 4 && Encrypt !in env.failing && env.cut > 1
      ensures CredentialLeads(old(core.journal.phase), core.journal.phase)
    {
      if !(core.journal.phase.BackupVerified? || core.journal.phase.CredentialReady?) { return Refused; }
      if Encrypt in env.failing { return Refused; }
      if env.cut <= 1 { return Died; }
      PlaceCredential();
      r := Ok(CredentialReady);
    }

    /** The image can be installed. */
    predicate Installs(env: Env) reads this {
      inventory == release.baseline && {Preflight, InstallBoot} !! env.failing
    }

    /** `advance` from `credential-ready`: install the image, then stage the replay. */
    method StageRelease(env: Env) returns (r: Reply)
      requires Valid() && core.journal.phase.CredentialReady?
      modifies this
      ensures Valid()
      ensures r.Ok? ==> r.phase.RebootPending? && ReplayStaged() && inventory == release.baseline
      ensures core.boot == old(core.boot)
      ensures r.Ok? ==> core.journal.bootBefore == core.boot
      ensures image == if old(Installs(env)) && env.cut != 0 then Some(release.image) else old(image)
      ensures core.journal.phase.CredentialReady? <==> !old(Installs(env)) || env.cut <= 1
      ensures env.cut <= 8 ==> !r.Ok?
      ensures env.cut > 9 ==>
        r == if old(Expected()) && old(Needed()) !! env.failing then Ok(old(Stop())) else Refused
      ensures
        || core.journal.phase.CredentialReady? || core.journal.phase.PackageStaging?
        || core.journal.phase.RebootPending?
    {
      if Preflight in env.failing || inventory != release.baseline || InstallBoot in env.failing { return Refused; }
      if env.cut == 0 { return Died; }
      image := Some(release.image);
      if env.cut == 1 { return Died; }
      r := StageAndPend(env);
    }

    /** `package-staging`, the staged replay, `reboot-pending`, and the reboot it asks for. */
    method StageAndPend(env: Env) returns (r: Reply)
      requires Valid() && core.journal.phase.CredentialReady? && inventory == release.baseline && image.Some?
      modifies this`core, this`link, this`unit, this`marker
      ensures Valid() && core.boot == old(core.boot)
      ensures r.Ok? ==> r.phase.RebootPending? && ReplayStaged() && core.journal.bootBefore == core.boot
      ensures 2 <= env.cut <= 8 ==> !r.Ok? && core.journal.phase.PackageStaging?
      ensures env.cut !in {2, 3, 4, 5, 6, 7, 8} ==>
        r == if old(Clear()) && {VerifyPackages, AnalyzeUnit, ArmReboot} !! env.failing then Ok(RebootPending)
             else Refused
      ensures core.journal.phase.PackageStaging? || core.journal.phase.RebootPending?
    {
      EnterStaging();
      if env.cut == 2 { return Died; }
      r := StageReplay(env);
      if !r.Ok? { return; }
      if env.cut == 8 { return Died; }
      EnterPending();
      r := if ArmReboot in env.failing then Refused else Ok(RebootPending);
    }

    /** Nothing stands in the way of a staged replay. */
    predicate Stages(env: Env) reads this {
      && Clear() && core.record.None? && image.Some? && inventory == release.baseline
      && VerifyPackages !in env.failing && env.cut != 3
    }

    /** `stage`: the record first, the marker that starts the replay last. */
    method StageReplay(env: Env) returns (r: Reply)
      requires Valid() && core.journal.phase.PackageStaging?
      modifies this`core, this`link, this`unit, this`marker
      ensures Valid() && core.journal == old(core.journal)
      ensures r.Ok? ==> old(core.record).None? && marker.Ours? && unit.OurUnit? && link && image.Some?
      ensures r.Ok? ==> core.record == Some(Offline(Staged, core.boot, None, release.expected, image.value))
      ensures core.boot == old(core.boot)
      ensures r.Ok? <==> old(Stages(env)) && AnalyzeUnit !in env.failing && env.cut !in {4, 5, 6, 7}
      ensures !old(Stages(env)) ==> unchanged(this)
      ensures old(Stages(env)) ==> core.record.Some? && (unit.OurUnit? <==> env.cut != 4)
      ensures old(Stages(env)) ==> (link <==> AnalyzeUnit !in env.failing && env.cut !in {4, 5})
      ensures old(Stages(env)) ==>
        core.record.value.status == if link && env.cut != 6 then Staged else Staging
      ensures marker == if r.Ok? then Ours else old(marker)
      ensures r.Died? ==> env.cut in {3, 4, 5, 6, 7}
      ensures old(core.record).Some? ==> unchanged(this)
    {
      if VerifyPackages in env.failing || inventory != release.baseline || image.None? { return Refused; }
      if !marker.NoMarker? || !unit.NoUnit? || link || core.record.Some? { return Refused; }
      if env.cut == 3 { return Died; }
      var o := Offline(Staging, core.boot, None, release.expected, image.value);
      RecordStaging(o);
      if env.cut == 4 { return Died; }
      r := EnableReplay(o.(status := Staged), env);
    }

    /** The unit, its link, the record, and last the marker. */
    method EnableReplay(o: Offline, env: Env) returns (r: Reply)
      requires Valid() && core.journal.phase.PackageStaging? && core.record == Some(o.(status := Staging))
      requires o.status.Staged? && o.bootBefore == core.boot
      modifies this`core, this`link, this`unit, this`marker
      ensures Valid() && core.journal == old(core.journal) && core.boot == old(core.boot)
      ensures r.Ok? ==> core.record == Some(o) && marker.Ours? && unit.OurUnit? && link
      ensures r ==
        if AnalyzeUnit in env.failing then Refused else if 5 <= env.cut <= 7 then Died else Ok(PackageStaging)
      ensures unit.OurUnit? && (link <==> old(link) || (AnalyzeUnit !in env.failing && env.cut != 5))
      ensures core.record ==
        Some(if AnalyzeUnit !in env.failing && env.cut !in {5, 6} then o else o.(status := Staging))
      ensures !r.Ok? ==> marker == old(marker)
    {
      unit := OurUnit;
      if AnalyzeUnit in env.failing { return Refused; }
      if env.cut == 5 { return Died; }
      link := true;
      if env.cut == 6 { return Died; }
      RecordStaged(o);
      if env.cut == 7 { return Died; }
      marker := Ours;
      r := Ok(PackageStaging);
    }

    /** `execute`: the marker is consumed before anything is replayed. */
    method Execute(env: Env) returns (r: Reply)
      requires Valid()
      modifies this`core, this`link, this`unit, this`inventory, this`marker
      ensures Valid() && core.journal == old(core.journal) && core.boot == old(core.boot)
      ensures core.trail.spoiled == old(core.trail.spoiled)
      ensures !old(marker).Ours? ==> unchanged(this)
      ensures old(marker).Ours? && env.cut > 0 ==> marker.NoMarker?
      ensures Starts(old(core.log), core.log) <==> old(ReplayDue(env))
      ensures old(marker).Ours? && r.Ok? ==>
        && ReplayedNow()
        && Selected(inventory, core.record.value.image, core.boot) in core.log
      ensures old(ReplayWaiting()) ==>
        (r.Ok? <==> old(ReplayDue(env)) && env.inventory == release.expected
                    && {RunReplay, SetDefault} !! env.failing && env.cut !in {4, 5, 6})
    {
      if !marker.Ours? { return Ok(core.journal.phase); }
      if env.cut == 0 { return Died; }
      marker := NoMarker;
      if env.cut == 1 { return Died; }
      if core.record.None? || !core.record.value.status.Staged? || core.record.value.bootBefore == core.boot {
        return Refused;
      }
      if env.cut == 2 { return Died; }
      r := RunStaged(env);
    }

    /** The record says `running` before anything runs. */
    method RunStaged(env: Env) returns (r: Reply)
      requires Valid() && core.record.Some? && core.record.value.status.Staged?
      requires core.record.value.bootBefore != core.boot
      modifies this`core, this`link, this`unit, this`inventory
      ensures Valid() && core.journal == old(core.journal) && core.boot == old(core.boot)
      ensures core.trail.spoiled == old(core.trail.spoiled)
      ensures Starts(old(core.log), core.log) <==>
                env.cut != 3 && old(inventory) == release.baseline && VerifyPackages !in env.failing
      ensures r.Ok? ==>
        core.record == Some(old(core.record).value.(status := Complete, updateBoot := Some(core.boot)))
      ensures r.Ok? ==> inventory == old(core.record).value.expected
      ensures r.Ok? <==>
        && old(inventory) == release.baseline && env.inventory == old(core.record).value.expected
        && image == Some(old(core.record).value.image) && old(unit).OurUnit? && old(link)
        && {VerifyPackages, RunReplay, SetDefault} !! env.failing && env.cut !in {3, 4, 5, 6}
      ensures r.Ok? ==> Selected(inventory, old(core.record).value.image, core.boot) in core.log
    {
      RecordRunning();
      if env.cut != 3 {
        r := ReplayOrFail(core.record.value, env);
      } else {
        r := Died;
      }
      OneReplay(release, core.log, core.trail);
    }

    /** A replay that fails is recorded as failed. */
    method ReplayOrFail(o: Offline, env: Env) returns (r: Reply)
      requires Valid() && core.record == Some(o) && o.status.Running? && o.updateBoot == Some(core.boot)
      requires core.trail.n == 4
      modifies this`core, this`link, this`unit, this`inventory
      ensures Valid() && core.journal == old(core.journal) && core.boot == old(core.boot)
      ensures core.trail.spoiled == old(core.trail.spoiled) && |old(core.log)| <= |core.log|
      ensures if VerifyPackages in env.failing || old(inventory) != release.baseline then core.trail.n == 4
              else core.trail.n >= 5 && core.trail.started == |old(core.log)|
      ensures r.Ok? ==> core.record == Some(o.(status := Complete)) && inventory == o.expected
      ensures r.Refused? ==> core.record == Some(o.(status := Failed))
      ensures r.Ok? <==>
        && old(inventory) == release.baseline && env.inventory == o.expected && image == Some(o.image)
        && old(unit).OurUnit? && old(link)
        && {VerifyPackages, RunReplay, SetDefault} !! env.failing && env.cut !in {4, 5, 6}
      ensures r.Ok? ==> Selected(o.expected, o.image, core.boot) in core.log
      ensures r.Died? ==> 4 <= env.cut <= 7
      ensures env.cut == 7 ==> !r.Refused? && (r.Died? ==> core.record == Some(o))
    {
      r := Replay(o, env);
      if r.Refused? {
        if env.cut == 7 { return Died; }
        RecordFailed();
      }
    }

    /** The guarded part of `execute`. */
    method Replay(o: Offline, env: Env) returns (r: Reply)
      requires Valid() && core.record == Some(o) && o.status.Running? && o.updateBoot == Some(core.boot)
      requires core.trail.n == 4
      modifies this`core, this`link, this`unit, this`inventory
      ensures Valid() && core.journal == old(core.journal)
      ensures r.Refused? ==> core.record == Some(o)
      ensures r.Ok? ==> core.record == Some(o.(status := Complete)) && inventory == o.expected && unit.NoUnit?
      ensures core.boot == old(core.boot)
      ensures core.trail.spoiled == old(core.trail.spoiled) && |old(core.log)| <= |core.log|
      ensures if VerifyPackages in env.failing || old(inventory) != release.baseline then core.trail.n == 4
              else core.trail.n >= 5 && core.trail.started == |old(core.log)|
      ensures r.Ok? <==>
        && old(inventory) == release.baseline && env.inventory == o.expected && image == Some(o.image)
        && old(unit).OurUnit? && old(link)
        && {VerifyPackages, RunReplay, SetDefault} !! env.failing && env.cut !in {4, 5, 6}
      ensures r.Ok? ==> Selected(o.expected, o.image, core.boot) in core.log
      ensures r.Died? ==> env.cut in {4, 5, 6}
    {
      if VerifyPackages in env.failing || inventory != release.baseline { return Refused; }
      StartReplay();
      inventory := env.inventory;
      if env.cut == 4 { return Died; }
      r := FinishReplay(o, env);
    }

    /** Select the verified image, clean up, complete. */
    method FinishReplay(o: Offline, env: Env) returns (r: Reply)
      requires Valid() && core.record == Some(o) && o.status.Running? && o.updateBoot == Some(core.boot)
      requires core.trail.n == 5
      modifies this`core, this`link, this`unit
      ensures Valid() && core.journal == old(core.journal)
      ensures r.Refused? ==> core.record == Some(o)
      ensures r.Ok? ==> core.record == Some(o.(status := Complete)) && inventory == o.expected && unit.NoUnit?
      ensures core.boot == old(core.boot)
      ensures core.trail.spoiled == old(core.trail.spoiled) && |old(core.log)| <= |core.log|
      ensures core.trail.n >= 5 && core.trail.started == old(core.trail.started)
      ensures r.Ok? <==>
        && inventory == o.expected && image == Some(o.image) && old(unit).OurUnit? && old(link)
        && {RunReplay, SetDefault} !! env.failing && env.cut !in {5, 6}
      ensures r.Died? ==> env.cut in {5, 6}
      ensures r.Ok? ==>
        |old(core.log)| < |core.log| && core.log[|old(core.log)|] == Selected(inventory, o.image, core.boot)
    {
      if RunReplay in env.failing || inventory != o.expected || image != Some(o.image) { return Refused; }
      SelectImage(o);
      r := CleanUp(o, env);
    }

    /** `cleanup` of the staged unit, then the completed record. */
    method CleanUp(o: Offline, env: Env) returns (r: Reply)
      requires Valid() && core.record == Some(o) && o.status.Running? && o.updateBoot == Some(core.boot)
      requires core.trail.n == 5
      modifies this`core, this`link, this`unit
      ensures Valid() && core.journal == old(core.journal)
      ensures r.Refused? ==> core.record == Some(o)
      ensures r.Ok? ==> core.record == Some(o.(status := Complete)) && unit.NoUnit?
      ensures core.boot == old(core.boot)
      ensures core.trail.spoiled == old(core.trail.spoiled) && |old(core.log)| <= |core.log|
      ensures core.trail.n >= 5 && core.trail.started == old(core.trail.started)
      ensures r.Ok? <==> old(unit).OurUnit? && old(link) && SetDefault !in env.failing && env.cut !in {5, 6}
      ensures r.Died? ==> env.cut in {5, 6}
      ensures !r.Ok? ==> core == old(core)
      ensures !r.Ok? && env.cut != 6 ==> unchanged(this)
      ensures r.Died? && env.cut == 6 ==> unit.NoUnit? && !link
      ensures old(core.log) <= core.log
    {
      if SetDefault in env.failing || !unit.OurUnit? || !link { return Refused; }
      if env.cut == 5 { return Died; }
      link, unit := false, NoUnit;
      if env.cut == 6 { return Died; }
      RecordComplete(o);
      r := Ok(core.journal.phase);
    }

    /** `advance`. */
    method Advance(env: Env) returns (r: Reply)
      requires Valid()
      modifies this
      ensures Valid()
      ensures r.Ok? ==> r.phase == core.journal.phase
      ensures Setback(old(core.journal.phase)) ==> r.Refused? && unchanged(this)
      ensures Rank(old(core.journal.phase)) <= 3 || old(core.journal.phase).PackageStaging? ==>
        r.Refused? && unchanged(this)
      ensures AdvanceLeads(old(core.journal.phase), core.journal.phase)
      ensures core.boot == old(core.boot)
      ensures env.cut > 9 ==>
        r == if old(Expected()) && old(Needed()) !! env.failing then Ok(old(Stop())) else Refused
      ensures env.cut > 9 && r.Refused? && old(AtRuntime(env)) ==> core.journal.phase == SetbackOf(env)
      ensures old(Waiting()) ==> r == Ok(old(core.journal.phase)) && unchanged(this)
      ensures r.Ok? && old(core.journal.phase).CredentialReady? ==>
        ReplayStaged() && inventory == release.baseline && core.journal.bootBefore == core.boot
      ensures r.Ok? && r.phase.PersistenceReboot? && !old(Waiting()) ==> core.journal.runtimeBoot == core.boot
      ensures r == Ok(Closed) && old(core.journal.phase).PersistenceReboot? ==> !snapshot
    {
      var p := core.journal.phase;
      if p.Closed? {
        r := StayClosed(env);
      } else if p.CredentialReady? {
        r := StageRelease(env);
      } else {
        r := AdvanceRebooted(env);
      }
    }

    /** `advance` after a reboot. */
    method AdvanceRebooted(env: Env) returns (r: Reply)
      requires Valid() && !core.journal.phase.Closed? && !core.journal.phase.CredentialReady?
      modifies this`core, this`snapshot
      ensures Valid() && core.boot == old(core.boot)
      ensures r.Ok? ==> r.phase == core.journal.phase
      ensures Rank(old(core.journal.phase)) <= 5 || Setback(old(core.journal.phase)) ==> r.Refused? && unchanged(this)
      ensures AdvanceLeads(old(core.journal.phase), core.journal.phase)
      ensures env.cut > 9 ==>
        r == if old(Expected()) && old(Needed()) !! env.failing then Ok(old(Stop())) else Refused
      ensures env.cut > 9 && r.Refused? && old(AtRuntime(env)) ==> core.journal.phase == SetbackOf(env)
      ensures old(Waiting()) ==> r == Ok(old(core.journal.phase)) && unchanged(this)
      ensures r.Ok? && r.phase.PersistenceReboot? && !old(Waiting()) ==> core.journal.runtimeBoot == core.boot
      ensures r == Ok(Closed) ==> !snapshot
    {
      var p := core.journal.phase;
      if p.RebootPending? {
        r := ConfirmAndInstall(env);
      } else if p.RuntimePending? || p.RuntimeInstalled? || p.PersistenceReboot? {
        r := Runtime(env);
      } else {
        r := Refused;
      }
    }

    method StayClosed(env: Env) returns (r: Reply)
      requires Valid() && core.journal.phase.Closed?
      modifies this`core
      ensures Valid() && core.journal == old(core.journal) && core.boot == old(core.boot)
      ensures r.Ok? ==> r.phase == core.journal.phase
      ensures env.cut > 9 ==>
        r == if old(Expected()) && old(Needed()) !! env.failing then Ok(old(Stop())) else Refused
      ensures if r.Ok? then core == Save(old(core), old(core).journal) else unchanged(this)
      ensures r.Ok? <==> Health !in env.failing && env.cut != 0
    {
      if Health in env.failing { return Refused; }
      if env.cut == 0 { return Died; }
      Enter(core.journal);
      r := Ok(Closed);
    }

    method ConfirmAndInstall(env: Env) returns (r: Reply)
      requires Valid() && core.journal.phase.RebootPending?
      modifies this`core, this`snapshot
      ensures Valid() && core.boot == old(core.boot)
      ensures r.Ok? ==> r.phase == core.journal.phase
      ensures env.cut > 9 ==>
        r == if old(Expected()) && old(Needed()) !! env.failing then Ok(old(Stop())) else Refused
      ensures env.cut > 9 && r.Refused? && old(AtRuntime(env)) ==> core.journal.phase == SetbackOf(env)
      ensures r.Ok? && !old(Waiting()) ==> r.phase.PersistenceReboot? && core.journal.runtimeBoot == core.boot
      ensures old(Waiting()) ==> r == Ok(RebootPending) && unchanged(this)
      ensures AdvanceLeads(RebootPending, core.journal.phase)
    {
      r := ConfirmReplay(env);
      if r == Ok(RuntimePending) { r := Runtime(env); }
    }

    /** `advance` from `reboot-pending`: a changed boot alone proves nothing. */
    method ConfirmReplay(env: Env) returns (r: Reply)
      requires Valid() && core.journal.phase.RebootPending?
      modifies this`core
      ensures Valid()
      ensures r.Ok? ==> r.phase == core.journal.phase
      ensures r == Ok(RuntimePending) ==> ReplayDone()
      ensures core.boot == old(core.boot)
      ensures env.cut != 0 && !old(Waiting()) ==>
        r == if old(ReplayDone()) && Preflight !in env.failing then Ok(RuntimePending) else Refused
      ensures env.cut == 0 && !old(Waiting()) ==> unchanged(this)
      ensures old(Waiting()) ==> r == Ok(RebootPending) && unchanged(this)
      ensures r.Ok? && !old(Waiting()) ==> r.phase.RuntimePending?
      ensures core.journal.phase == if r == Ok(RuntimePending) then RuntimePending else RebootPending
    {
      if core.boot == core.journal.bootBefore { return Ok(RebootPending); }
      if inventory != release.expected { return Refused; }
      if core.record.None? || !core.record.value.status.Complete? || core.record.value.updateBoot == Some(core.boot) {
        return Refused;
      }
      if Preflight in env.failing { return Refused; }
      if env.cut == 0 { return Died; }
      Enter(core.journal.(phase := RuntimePending));
      r := Ok(RuntimePending);
    }

    /** The runtime half of `advance`; a failed command rolls the release back. */
    method Runtime(env: Env) returns (r: Reply)
      requires Valid()
      requires
        || core.journal.phase.RuntimePending? || core.journal.phase.RuntimeInstalled?
        || core.journal.phase.PersistenceReboot?
      modifies this`core, this`snapshot
      ensures Valid()
      ensures r.Ok? ==> r.phase == core.journal.phase
      ensures r == Ok(Closed) ==> old(core.journal.phase).PersistenceReboot?
      ensures r == Ok(Closed) ==> core.boot != old(core.journal.runtimeBoot) && !snapshot
      ensures core.boot == old(core.boot)
      ensures env.cut > 9 ==>
        r == if old(Expected()) && old(Needed()) !! env.failing then Ok(old(Stop())) else Refused
      ensures env.cut > 9 && r.Refused? ==> core.journal.phase == SetbackOf(env)
      ensures r.Ok? && r.phase.PersistenceReboot? && !old(Waiting()) ==> core.journal.runtimeBoot == core.boot
      ensures old(Waiting()) ==> r == Ok(PersistenceReboot) && unchanged(this)
      ensures r.Ok? ==> r.phase == old(Stop())
      ensures AdvanceLeads(old(core.journal.phase), core.journal.phase)
    {
      if core.journal.phase.PersistenceReboot? && core.boot == core.journal.runtimeBoot {
        return Ok(PersistenceReboot);
      }
      r := Accepting(env);
      if r.Refused? {
        var _ := Rollback(core.journal, env);
      }
    }

    /** The part of `advance` whose failure rolls the release back. */
    method Accepting(env: Env) returns (r: Reply)
      requires Valid() && 7 <= Rank(core.journal.phase) <= 9 && !Waiting()
      modifies this`core, this`snapshot
      ensures Valid() && core.boot == old(core.boot)
      ensures r.Ok? ==> r.phase == core.journal.phase == old(Stop())
      ensures r == Ok(Closed) ==> !snapshot
      ensures r.Ok? && r.phase.PersistenceReboot? ==> core.journal.runtimeBoot == core.boot
      ensures env.cut > 9 ==> r == if old(Needed()) !! env.failing then Ok(old(Stop())) else Refused
      ensures Rank(old(core.journal.phase)) <= Rank(core.journal.phase) <= 9 || r.Ok?
    {
      if core.journal.phase.PersistenceReboot? {
        r := Persisted(env);
      } else {
        r := Installed(env);
      }
    }

    method Installed(env: Env) returns (r: Reply)
      requires Valid() && (core.journal.phase.RuntimePending? || core.journal.phase.RuntimeInstalled?)
      modifies this`core
      ensures Valid() && core.boot == old(core.boot)
      ensures r.Ok? ==> r.phase == core.journal.phase && r.phase.PersistenceReboot?
      ensures r.Ok? ==> core.journal.runtimeBoot == core.boot
      ensures env.cut > 9 ==> r == if old(Needed()) !! env.failing then Ok(PersistenceReboot) else Refused
      ensures Rank(old(core.journal.phase)) <= Rank(core.journal.phase) <= 9
      ensures old(core.journal.phase).RuntimePending? ==>
        (core.journal.phase.RuntimePending? <==> InstallRuntime in env.failing || env.cut == 1)
    {
      if core.journal.phase.RuntimePending? {
        if InstallRuntime in env.failing { return Refused; }
        if env.cut == 1 { return Died; }
        Enter(core.journal.(phase := RuntimeInstalled));
      }
      r := AcceptFirst(env);
    }

    /** The acceptance of an installed runtime, and the reboot it asks for. */
    method AcceptFirst(env: Env) returns (r: Reply)
      requires Valid() && core.journal.phase.RuntimeInstalled?
      modifies this`core
      ensures Valid() && core.boot == old(core.boot)
      ensures r.Ok? ==> r.phase == core.journal.phase && r.phase.PersistenceReboot?
      ensures r.Ok? ==> core.journal.runtimeBoot == core.boot
      ensures env.cut > 9 ==> r == if old(Needed()) !! env.failing then Ok(PersistenceReboot) else Refused
      ensures core.journal.phase ==
        if Acceptance in env.failing || env.cut == 2 then RuntimeInstalled else PersistenceReboot
      ensures Acceptance !in env.failing ==> old(core.log) + [Accepted(core.boot)] <= core.log
    {
      if Acceptance in env.failing { return Refused; }
      if env.cut == 2 {
        AcceptOnly();
        return Died;
      }
      PlaceFirstAcceptance();
      r := if ArmReboot in env.failing then Refused else Ok(PersistenceReboot);
    }

    method Persisted(env: Env) returns (r: Reply)
      requires Valid() && core.journal.phase.PersistenceReboot? && core.boot != core.journal.runtimeBoot
      modifies this`core, this`snapshot
      ensures Valid() && core.boot == old(core.boot)
      ensures r.Ok? ==> r.phase == core.journal.phase && r.phase.Closed?
      ensures env.cut > 9 ==> r == if old(Needed()) !! env.failing then Ok(Closed) else Refused
      ensures r.Ok? <==> {Health, Acceptance, Preflight} !! env.failing && env.cut !in {3, 4}
      ensures !r.Ok? ==> core.journal.phase == old(core.journal.phase)
      ensures {Health, Acceptance} !! env.failing ==> old(core.log) + [Accepted(core.boot)] <= core.log
      ensures snapshot <==> old(snapshot) && !({Health, Acceptance, Preflight} !! env.failing && env.cut != 3)
    {
      if Health in env.failing || Acceptance in env.failing { return Refused; }
      if Preflight in env.failing || env.cut == 3 {
        AcceptOnly();
        return if Preflight in env.failing then Refused else Died;
      }
      snapshot := false;
      if env.cut == 4 {
        AcceptOnly();
        return Died;
      }
      PlaceSecondAcceptance();
      r := Ok(Closed);
    }

    /** `rollback`, saving over the journal the caller has read. */
    method Rollback(j: Journal, env: Env) returns (r: Reply)
      requires Valid()
      modifies this`core
      ensures Valid() && core.boot == old(core.boot) && core.record == old(core.record)
      ensures r.Ok? <==> backup.Taken? && env.cut != 9
      ensures r.Ok? ==> r.phase == SetbackOf(env) && (r.phase.RecoveryRequired? <==> Restart in env.failing)
      ensures r.Ok? ==> core.journal == j.(phase := r.phase) && core.trail.spoiled.Some?
      ensures !r.Ok? ==> unchanged(this)
      ensures core.journal.phase == old(core.journal.phase) || Setback(core.journal.phase)
    {
      if !backup.Taken? { return Refused; }
      if env.cut == 9 { return Died; }
      var p := SetbackOf(env);
      SaveSetback(j.(phase := p));
      r := Ok(p);
    }

    method SaveSetback(j: Journal)
      requires Valid() && backup.Taken? && Setback(j.phase)
      modifies this`core
      ensures Valid() && core == Save(old(core), j).(trail := core.trail) && core.trail.spoiled.Some?
    {
      var t := if core.trail.spoiled.None? then core.trail.(spoiled := Some(|core.log|)) else core.trail;
      SetbackInv(release, core, j, t);
      core := Save(core, j).(trail := t);
    }

    /** The backup guard starts: it reads the journal before it takes the lock. */
    method LoadGuard()
      modifies this`stale
      ensures stale == Some(core.journal)
    {
      stale := Some(core.journal);
    }

    /** The guard has the lock and acts on what it read before. */
    method RunGuard(env: Env)
      requires Valid()
      modifies this`core, this`stale
      ensures Valid() && stale.None? && core.boot == old(core.boot)
      ensures core.journal ==
        if old(stale).Some? && Guarded(old(stale).value.phase) && backup.Taken? && env.cut != 9
        then old(stale).value.(phase := SetbackOf(env)) else old(core.journal)
    {
      if stale.Some? && 1 <= Rank(stale.value.phase) <= 4 {
        var _ := Rollback(stale.value, env);
      }
      stale := None;
    }

    /** A boot has a fresh identifier and no process of the boot before it. */
    method Reboot()
      requires Valid()
      modifies this`core, this`stale
      ensures Valid() && core == old(core).(boot := old(core.boot) + 1) && stale.None?
    {
      core, stale := core.(boot := core.boot + 1), None;
    }

    /** Other parties change packages, the boot image, the update marker and units at will. */
    method Interfere(packages: Digest, efi: Option<Digest>, update: Marker, service: Unit, want: bool)
      modifies this`inventory, this`image, this`marker, this`unit, this`link
      ensures inventory == packages && image == efi && marker == update && unit == service && link == want
    {
      inventory, image, marker, unit, link := packages, efi, update, service, want;
    }
  }

  datatype Step =
    | DoSnapshot(taken: Digest, env: Env) | DoAcknowledge(snapshot: Digest, env: Env) | DoCredential(env: Env)
    | DoAdvance(env: Env) | DoExecute(env: Env) | DoRollback(env: Env) | DoLoadGuard | DoRunGuard(env: Env)
    | DoReboot | DoInterfere(inventory: Digest, image: Option<Digest>, marker: Marker, unit: Unit, link: bool)

  /* ---------- what holds of every run ---------- */

  /** A closed release went through every milestone, in order and across four boots. */
  ghost predicate ClosesInOrder(log: seq<Event>) {
    forall i: nat :: i < |log| && log[i].Saved? && log[i].phase.Closed? ==>
      exists t: Trail :: t.n == 8 && Milestones(log, t) && t.second < i
  }

  ghost predicate ReplaysOnce(log: seq<Event>) {
    forall i, j :: 0 <= i < j < |log| ==> !(log[i].Replayed? && log[j].Replayed?)
  }

  /** The new image becomes the default only with the predicted packages installed, in the boot
      of the replay, and with the bytes hashed in the earlier boot that staged it. */
  ghost predicate SelectsVerified(r: Release, log: seq<Event>) {
    forall i: nat :: i < |log| && log[i].Selected? ==>
      && log[i].inventory == r.expected
      && exists h: nat, p: nat :: h < p < i && log[h].Hashed? && log[h].image == log[i].image
           && log[p] == Replayed(log[i].boot) && log[h].boot < log[p].boot
  }

  /** After the first rollback the journal never moves forward and nothing is accepted. */
  ghost predicate StaysBack(log: seq<Event>) {
    forall i, j :: 0 <= i < j < |log| && log[i].Saved? && Setback(log[i].phase) ==>
      !log[j].Accepted? && (log[j].Saved? ==> Setback(log[j].phase))
  }

  lemma Consequences(r: Release, log: seq<Event>, t: Trail)
    requires AllLawful(r, log, t)
    ensures ClosesInOrder(log) && ReplaysOnce(log) && SelectsVerified(r, log) && StaysBack(log)
  {
    forall i: nat | i < |log| && log[i].Saved? && log[i].phase.Closed?
      ensures exists u: Trail :: u.n == 8 && Milestones(log, u) && u.second < i
    {
      assert Lawful(r, log, t, i);
      var u := t.(n := 8);
      assert u.n == 8 && Milestones(log, u) && u.second < i;
    }
    forall i, j | 0 <= i < j < |log|
      ensures !(log[i].Replayed? && log[j].Replayed?)
      ensures log[i].Saved? && Setback(log[i].phase) ==> !log[j].Accepted? && (log[j].Saved? ==> Setback(log[j].phase))
    {
      assert Lawful(r, log, t, i) && Lawful(r, log, t, j);
    }
    forall i: nat | i < |log| && log[i].Selected?
      ensures log[i].inventory == r.expected
      ensures exists h: nat, p: nat :: h < p < i && log[h].Hashed? && log[h].image == log[i].image
                && log[p] == Replayed(log[i].boot) && log[h].boot < log[p].boot
    {
      assert Lawful(r, log, t, i);
      assert t.hash < t.started < i && log[t.started] == Replayed(log[i].boot);
    }
  }

  function Reboots(steps: seq<Step>): nat {
    if steps == [] then 0
    else Reboots(steps[..|steps| - 1]) + if steps[|steps| - 1].DoReboot? then 1 else 0
  }

  /** Any run of any operations, cut anywhere, with reboots, a stale guard and interference. */
  method Run(r: Release, inventory: Digest, boot: Boot, steps: seq<Step>)
    returns (phase: Phase, last: Boot, log: seq<Event>)
    ensures last == boot + Reboots(steps)
    ensures ClosesInOrder(log) && ReplaysOnce(log) && SelectsVerified(r, log) && StaysBack(log)
    ensures phase.Closed? ==> exists t: Trail :: t.n == 8 && Milestones(log, t)
  {
    var host := new Host(r, inventory, boot);
    var k := 0;
    while k < |steps|
      invariant 0 <= k <= |steps| && host.Valid() && fresh(host) && host.release == r
      invariant host.core.boot == boot + Reboots(steps[..k])
    {
      assert steps[..k + 1][..k] == steps[..k];
      Perform(host, steps[k]);
      k := k + 1;
    }
    assert steps[..k] == steps;
    phase, last, log := host.core.journal.phase, host.core.boot, host.core.log;
    Consequences(r, log, host.core.trail);
  }

  /** A run in which nothing fails closes the release on the third boot after the one it began in. */
  method SmoothRun(r: Release, boot: Boot, snapshot: Digest) returns (phase: Phase, last: Boot, log: seq<Event>)
    ensures phase.Closed? && last == boot + 3 && ClosesInOrder(log)
  {
    var host := new Host(r, r.baseline, boot);
    var good := Env(10, {}, r.expected);
    StartSmoothly(host, snapshot, good);
    FinishSmoothly(host, good);
    phase, last, log := host.core.journal.phase, host.core.boot, host.core.log;
    Consequences(r, log, host.core.trail);
  }

  /** A rollback leaves a staged replay staged: the next boot replays although the journal says
      `rolled-back`. When exactly a replay starts does not depend on the journal (`ReplayDue`). */
  method ReplayAfterRollback() returns (phase: Phase, log: seq<Event>, i: nat, j: nat)
    ensures phase.RolledBack? && i < j < |log|
    ensures log[i].Saved? && Setback(log[i].phase) && log[j].Replayed?
  {
    var host := new Host(Release(1, 2, 3), 1, 0);
    var good := Env(10, {}, 2);
    StartSmoothly(host, 7, good);
    RollBackStaged(host, good);
    i, j := ReplayAnyway(host, good);
    phase, log := host.core.journal.phase, host.core.log;
  }

  method RollBackStaged(host: Host, good: Env)
    requires host.Valid() && host.ReplayStaged() && Good(good) && host.inventory == host.release.baseline
    modifies host
    ensures host.Valid() && host.core.journal.phase.RolledBack? && host.core.trail.spoiled.Some? && host.ReplayDue(good)
  {
    var _ := host.Rollback(host.core.journal, good);
    host.Reboot();
  }

  method ReplayAnyway(host: Host, env: Env) returns (i: nat, j: nat)
    requires host.Valid() && host.ReplayDue(env) && host.core.trail.spoiled.Some?
    modifies host
    ensures host.Valid() && host.core.journal == old(host.core.journal) && i < j < |host.core.log|
    ensures host.core.log[i].Saved? && Setback(host.core.log[i].phase) && host.core.log[j].Replayed?
  {
    i := host.core.trail.spoiled.value;
    ghost var before := host.core.log;
    var _ := host.Execute(env);
    OneReplay(host.release, host.core.log, host.core.trail);
    assert Starts(before, host.core.log);
    j := host.core.trail.started;
  }

  method StartSmoothly(host: Host, snapshot: Digest, good: Env)
    requires host.Valid() && host.core.journal.phase.New? && host.backup.NoBackup? && !host.snapshot && host.Clear()
    requires Good(good) && host.inventory == host.release.baseline
    modifies host
    ensures host.Valid() && host.ReplayStaged() && host.inventory == host.release.baseline
    ensures host.core.boot == old(host.core.boot)
  {
    Prepare(host, DoSnapshot(snapshot, good));
    Prepare(host, DoAcknowledge(snapshot, good));
    Prepare(host, DoCredential(good));
    Perform(host, DoAdvance(good));
  }

  method FinishSmoothly(host: Host, good: Env)
    requires host.Valid() && host.ReplayStaged() && Good(good)
    requires host.inventory == host.release.baseline && good.inventory == host.release.expected
    modifies host
    ensures host.Valid() && host.core.journal.phase.Closed? && host.core.boot == old(host.core.boot) + 3
  {
    Happen(host, DoReboot);
    Perform(host, DoExecute(good));
    Happen(host, DoReboot);
    InstallSmoothly(host, good);
  }

  method InstallSmoothly(host: Host, good: Env)
    requires host.Valid() && host.core.journal.phase.RebootPending? && host.ReplayDone() && Good(good)
    requires host.core.journal.bootBefore < host.core.boot
    modifies host
    ensures host.Valid() && host.core.journal.phase.Closed? && host.core.boot == old(host.core.boot) + 1
  {
    Perform(host, DoAdvance(good));
    Happen(host, DoReboot);
    Perform(host, DoAdvance(good));
  }

  /** One operation of a run. */
  method Perform(host: Host, step: Step)
    requires host.Valid()
    modifies host
    ensures host.Valid() && host.core.boot == old(host.core.boot) + if step.DoReboot? then 1 else 0
    ensures step.DoAdvance? && Good(step.env) && old(host.Expected()) ==>
      && host.core.journal.phase == old(host.Stop())
      && (old(host.core.journal.phase).CredentialReady? ==>
            host.ReplayStaged() && host.inventory == host.release.baseline)
      && (host.core.journal.phase.PersistenceReboot? && !old(host.Waiting()) ==>
            host.core.journal.runtimeBoot == host.core.boot)
    ensures step.DoSnapshot? && Good(step.env) && old(host.CanSnapshot()) ==> host.core.journal.phase.SnapshotReady?
    ensures step.DoAcknowledge? && Good(step.env) && old(host.core.journal.phase).SnapshotReady? ==>
      (step.snapshot == old(host.core.journal.snapshot) <==> host.core.journal.phase.BackupVerified?)
    ensures step.DoCredential? && Good(step.env) && old(host.core.journal.phase).BackupVerified? ==>
      host.core.journal.phase.CredentialReady?
    ensures step.DoExecute? ==> host.core.journal == old(host.core.journal)
    ensures step.DoExecute? ==> (Starts(old(host.core.log), host.core.log) <==> old(host.ReplayDue(step.env)))
    ensures step.DoExecute? && Good(step.env) && old(host.ReplayWaiting() && host.ReplayDue(step.env)) ==>
      (step.env.inventory == host.release.expected ==> host.ReplayedNow())
    ensures step.DoRollback? && old(host.backup).Taken? && step.env.cut != 9 ==> Setback(host.core.journal.phase)
  {
    match step
    case DoSnapshot(_, _) => Prepare(host, step);
    case DoAcknowledge(_, _) => Prepare(host, step);
    case DoCredential(_) => Prepare(host, step);
    case DoAdvance(env) => var _ := host.Advance(env);
    case DoExecute(env) => var _ := host.Execute(env);
    case DoRollback(env) => var _ := host.Rollback(host.core.journal, env);
    case _ => Happen(host, step);
  }

  method Prepare(host: Host, step: Step)
    requires host.Valid() && (step.DoSnapshot? || step.DoAcknowledge? || step.DoCredential?)
    modifies host
    ensures host.Valid() && host.core.boot == old(host.core.boot)
    ensures host.inventory == old(host.inventory) && (host.Clear() <==> old(host.Clear()))
    ensures step.DoSnapshot? && Good(step.env) && old(host.CanSnapshot()) ==>
      host.core.journal.phase.SnapshotReady? && host.core.journal.snapshot == step.taken
    ensures step.DoAcknowledge? && Good(step.env) && old(host.core.journal.phase).SnapshotReady? ==>
      (step.snapshot == old(host.core.journal.snapshot) <==> host.core.journal.phase.BackupVerified?)
    ensures step.DoCredential? && Good(step.env) && old(host.core.journal.phase).BackupVerified? ==>
      host.core.journal.phase.CredentialReady?
  {
    match step
    case DoSnapshot(taken, env) => var _ := host.Snapshot(taken, env);
    case DoAcknowledge(snapshot, env) => var _ := host.AcknowledgeBackup(snapshot, env);
    case DoCredential(env) => var _ := host.Credential(env);
  }

  /** What happens to the host. */
  method Happen(host: Host, step: Step)
    requires host.Valid() && (step.DoLoadGuard? || step.DoRunGuard? || step.DoReboot? || step.DoInterfere?)
    modifies host
    ensures host.Valid() && host.core.boot == old(host.core.boot) + if step.DoReboot? then 1 else 0
    ensures step.DoLoadGuard? ==> host.stale == Some(host.core.journal)
    ensures step.DoRunGuard? && old(host.stale).Some? && Guarded(old(host.stale).value.phase) ==>
      (old(host.backup).Taken? && step.env.cut != 9 ==> Setback(host.core.journal.phase))
    ensures step.DoInterfere? ==>
      host.inventory == step.inventory && host.image == step.image && host.marker == step.marker
    ensures step.DoReboot? ==>
      && host.core == old(host.core).(boot := host.core.boot) && host.inventory == old(host.inventory)
      && host.marker == old(host.marker) && host.unit == old(host.unit) && host.link == old(host.link)
      && host.image == old(host.image)
  {
    match step
    case DoLoadGuard => host.LoadGuard();
    case DoRunGuard(env) => host.RunGuard(env);
    case DoReboot => host.Reboot();
    case DoInterfere(inventory, image, marker, unit, link) => host.Interfere(inventory, image, marker, unit, link);
  }
}
