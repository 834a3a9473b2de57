/** The files the unattended installer manages (`host.py`): each is recorded once, before its
    first change, and `rollback` puts every recorded file back. Installation and rollback may
    be cut before any single file operation and repeated. */
module HostFiles {
  import opened Options
  import opened UndoLog

  /** The files touched by the installer; user-level units live in a directory per user id. */
  datatype Path =
    | Credential | Config | Overlay | Runtime | VolumeLabel
    | Unit(user: nat) | ContainerDropin(user: nat) | Manager(user: nat)
    | Materialize | CredentialsService | RuntimeOrder
    | Other(name: string)

  datatype File = File(bytes: string, mode: nat, uid: nat, gid: nat)
  type Files = map<Path, File>

  /** `files.json`. */
  type Records = seq<Record<Path, File>>

  function Bytes(file: Option<File>): Option<string> {
    if file.None? then None else Some(file.value.bytes)
  }

  /** The same file; of `config.yaml`, which the application owns, only the bytes count. */
  predicate Same(p: Path, a: Files, b: Files) {
    if p.Config? then Bytes(At(a, p)) == Bytes(At(b, p)) else At(a, p) == At(b, p)
  }

  const PRIVATE: nat := 384     // 0600
  const READABLE: nat := 420    // 0644
  const EXECUTABLE: nat := 493  // 0755

  datatype Payload = Payload(unit: string, runtime: string, volumeLabel: string, materialize: string, service: string,
                             order: string, manager: string, dropin: string, config: string, model: string)

  /* ---------- what an undisturbed installation leaves ---------- */

  function Put(files: Files, p: Path, bytes: string, mode: nat): Files {
    Changed(files, p, Some(File(bytes, mode, 0, 0)))
  }

  function UnitFiles(files: Files, user: nat, f: Payload): Files {
    var started := Put(Put(files, Unit(user), f.unit, READABLE), Runtime, f.runtime, READABLE);
    Put(started, VolumeLabel, f.volumeLabel, READABLE)
  }

  function Materializer(files: Files, f: Payload): Files {
    Put(Put(files, Materialize, f.materialize, EXECUTABLE), CredentialsService, f.service, READABLE)
  }

  function ServiceFiles(files: Files, user: nat, f: Payload): Files {
    var materializer := Materializer(files, f);
    var managed := Put(Put(materializer, RuntimeOrder, f.order, READABLE), Manager(user), f.manager, READABLE);
    Put(managed, ContainerDropin(user), f.dropin, READABLE)
  }

  function RuntimeFiles(files: Files, user: nat, f: Payload, owner: File): Files {
    var bare := Changed(Changed(UnitFiles(files, user, f), Overlay, None), ContainerDropin(user), None);
    var hardened := Changed(bare, Config, Some(owner.(bytes := f.config)));
    var configured := Changed(hardened, Config, Some(owner.(bytes := f.model)));
    ServiceFiles(configured, user, f)
  }

  /** Each managed file ends up with its payload, and no other file changes. */
  lemma RuntimeFilesHold(files: Files, user: nat, f: Payload, owner: File, p: Path)
    ensures At(RuntimeFiles(files, user, f, owner), p) ==
      if p == Unit(user) then Some(File(f.unit, READABLE, 0, 0))
      else if p.Runtime? then Some(File(f.runtime, READABLE, 0, 0))
      else if p.VolumeLabel? then Some(File(f.volumeLabel, READABLE, 0, 0))
      else if p.Overlay? then None
      else if p.Config? then Some(owner.(bytes := f.model))
      else if p.Materialize? then Some(File(f.materialize, EXECUTABLE, 0, 0))
      else if p.CredentialsService? then Some(File(f.service, READABLE, 0, 0))
      else if p.RuntimeOrder? then Some(File(f.order, READABLE, 0, 0))
      else if p == Manager(user) then Some(File(f.manager, READABLE, 0, 0))
      else if p == ContainerDropin(user) then Some(File(f.dropin, READABLE, 0, 0))
      else At(files, p)
  {
  }

  lemma ChangedTwice(files: Files, p: Path, a: Option<File>, b: Option<File>)
    ensures Changed(Changed(files, p, a), p, b) == Changed(files, p, b)
  {
  }

  /** What a capture records. */
  function Captured(files: Files, user: Option<nat>): Records {
    [Record(Credential, At(files, Credential)), Record(Config, At(files, Config))]
    + (if user.Some? then [Record(Unit(user.value), At(files, Unit(user.value)))] else [])
    + [Record(Overlay, At(files, Overlay))]
  }

  /** `budget` is how many more file operations the running process performs before it dies. */
  class Host {
    var files: Files
    var records: Records
    var started: bool
    var complete: bool
    var budget: nat
    ghost const origin: Files

    ghost predicate Valid() reads this {
      && (complete ==> started && Faithful(records, files, origin) && Recorded(records, Credential)
                       && Recorded(records, Config) && Recorded(records, Overlay) && records[0].path == Credential)
      && (!complete ==> files == origin)
    }

    /** What an installation step keeps. */
    twostate predicate Keeps() reads this {
      && Valid() && complete == old(complete) && started == old(started)
      && old(records) <= records && budget <= old(budget)
    }

    /** So many file operations, and one for each path newly recorded. */
    twostate predicate Spent(n: nat) reads this {
      old(budget) - budget == n + |records| - |old(records)|
    }

    constructor (initial: Files)
      ensures Valid() && origin == initial && files == initial && !complete && !started
    {
      files, records, started, complete, budget := initial, [], false, false, 0;
      origin := initial;
    }

    /** `capture_application`: a capture that was interrupted is never resumed. */
    method Capture(user: Option<nat>) returns (ok: bool)
      requires Valid()
      modifies this
      ensures Valid() && files == old(files)
      ensures ok ==> complete && records != [] && records[0].path == Credential
      ensures ok <==> if old(started) then complete else old(budget) > 2
      ensures started <==> old(started) || old(budget) > 0
      ensures complete <==> if old(started) then old(complete) else old(budget) > 2
      ensures records == if old(started) || old(budget) <= 2 then old(records) else Captured(files, user)
      ensures ok && !old(started) ==> Recorded(records, Config) && Recorded(records, Overlay)
      ensures ok && !old(started) && user.Some? ==> Recorded(records, Unit(user.value))
      ensures budget == old(budget)
    {
      if started { return complete; }
      if budget == 0 { return false; }
      started := true;
      if budget <= 2 { return false; }
      records := Captured(files, user);
      assert records[0].path == Credential && records[1].path == Config && records[|records| - 1].path == Overlay;
      assert user.Some? ==> records[2].path == Unit(user.value);
      complete := true;
      ok := true;
    }

    /** `track`. */
    method Track(p: Path)
      requires Valid() && complete
      modifies this`records, this`budget
      ensures Keeps() && files == old(files)
      ensures budget > 0 ==> Recorded(records, p)
      ensures Recorded(old(records), p) || old(budget) <= 1 ==> records == old(records)
      ensures !Recorded(old(records), p) && old(budget) > 1 ==> records == old(records) + [Record(p, At(files, p))]
      ensures budget == if Recorded(old(records), p) || old(budget) == 0 then old(budget) else old(budget) - 1
    {
      if budget == 0 || Recorded(records, p) { return; }
      budget := budget - 1;
      if budget == 0 { return; }
      RecordKeeps(records, files, origin, p);
      StillRecorded(records, records + [Record(p, At(files, p))]);
      records := records + [Record(p, At(files, p))];
    }

    method Change(p: Path, file: Option<File>)
      requires Valid() && complete && (budget > 0 ==> Recorded(records, p))
      modifies this`files, this`budget
      ensures Keeps() && records == old(records) && budget == (if old(budget) == 0 then 0 else old(budget) - 1)
      ensures files == if old(budget) == 0 then old(files) else Changed(old(files), p, file)
    {
      if budget == 0 { return; }
      budget := budget - 1;
      files := Changed(files, p, file);
    }

    /** `install_file`, and `atomic` followed by `chmod`. */
    method Install(p: Path, bytes: string, mode: nat)
      requires Valid() && complete && (budget > 0 ==> Recorded(records, p))
      modifies this`files, this`budget
      ensures Keeps() && records == old(records)
      ensures budget == if old(budget) < 2 then 0 else old(budget) - 2
      ensures files == if old(budget) == 0 then old(files)
                       else Put(old(files), p, bytes, if old(budget) == 1 then PRIVATE else mode)
    {
      Change(p, Some(File(bytes, PRIVATE, 0, 0)));
      Change(p, Some(File(bytes, mode, 0, 0)));
      ChangedTwice(old(files), p, Some(File(bytes, PRIVATE, 0, 0)), Some(File(bytes, mode, 0, 0)));
    }

    /** `credential`: the key was captured before any phase that allows this. */
    method InstallCredential(bytes: string)
      requires Valid() && complete
      modifies this`files, this`budget
      ensures Keeps() && records == old(records)
      ensures files == if old(budget) == 0 then old(files) else Put(old(files), Credential, bytes, PRIVATE)
    {
      Change(Credential, Some(File(bytes, PRIVATE, 0, 0)));
    }

    /** The containerised configuration programs, or the application itself. */
    method EditConfig(file: Option<File>)
      requires Valid() && complete
      modifies this`files, this`budget
      ensures Keeps() && records == old(records)
      ensures forall p: Path :: !p.Config? ==> At(files, p) == At(old(files), p)
      ensures files == if old(budget) == 0 then old(files) else Changed(old(files), Config, file)
      ensures budget == if old(budget) == 0 then 0 else old(budget) - 1
    {
      Change(Config, file);
    }

    /** `track`, then `install_file`. */
    method TrackAndInstall(p: Path, bytes: string, mode: nat)
      requires Valid() && complete
      modifies this`files, this`records, this`budget
      ensures Keeps() && (budget > 0 ==> Recorded(records, p))
      ensures old(budget) > 3 ==> budget >= old(budget) - 3
      ensures budget > 0 ==> files == Put(old(files), p, bytes, mode)
      ensures budget > 0 ==> Spent(2)
    {
      Track(p);
      Install(p, bytes, mode);
    }

    /** `install_runtime`: every change below finds its path already recorded, wherever the process
        dies; a process that survives has installed everything. */
    method InstallRuntime(user: nat, f: Payload, owner: File)
      requires Valid() && complete
      modifies this`files, this`records, this`budget
      ensures Keeps()
      ensures budget > 0 ==> files == RuntimeFiles(old(files), user, f, owner) && Spent(20)
      ensures old(budget) > 29 ==> budget > 0
    {
      InstallUnits(user, f);
      RemoveOverlays(user);
      EditConfig(Some(owner.(bytes := f.config)));
      EditConfig(Some(owner.(bytes := f.model)));
      InstallServices(user, f);
    }

    method InstallUnits(user: nat, f: Payload)
      requires Valid() && complete
      modifies this`files, this`records, this`budget
      ensures Keeps()
      ensures budget > 0 ==> files == UnitFiles(old(files), user, f) && Spent(6)
      ensures old(budget) > 9 ==> budget >= old(budget) - 9
    {
      TrackAndInstall(Unit(user), f.unit, READABLE);
      TrackAndInstall(Runtime, f.runtime, READABLE);
      TrackAndInstall(VolumeLabel, f.volumeLabel, READABLE);
    }

    /** The old overlay was captured, the drop-in is tracked now. */
    method RemoveOverlays(user: nat)
      requires Valid() && complete
      modifies this`files, this`records, this`budget
      ensures Keeps() && (budget > 0 ==> Recorded(records, ContainerDropin(user)))
      ensures budget > 0 ==> files == Changed(Changed(old(files), Overlay, None), ContainerDropin(user), None)
      ensures budget > 0 ==> Spent(2)
      ensures old(budget) > 3 ==> budget >= old(budget) - 3
    {
      Change(Overlay, None);
      Track(ContainerDropin(user));
      Change(ContainerDropin(user), None);
    }

    method InstallServices(user: nat, f: Payload)
      requires Valid() && complete && (budget > 0 ==> Recorded(records, ContainerDropin(user)))
      modifies this`files, this`records, this`budget
      ensures Keeps()
      ensures budget > 0 ==> files == ServiceFiles(old(files), user, f) && Spent(10)
      ensures old(budget) > 14 ==> budget >= old(budget) - 14
    {
      InstallMaterializer(f);
      TrackAndInstall(RuntimeOrder, f.order, READABLE);
      TrackAndInstall(Manager(user), f.manager, READABLE);
      StillRecorded(old(records), records);
      Install(ContainerDropin(user), f.dropin, READABLE);
    }

    method InstallMaterializer(f: Payload)
      requires Valid() && complete
      modifies this`files, this`records, this`budget
      ensures Keeps()
      ensures budget > 0 ==> files == Materializer(old(files), f) && Spent(4)
      ensures old(budget) > 6 ==> budget >= old(budget) - 6
    {
      Track(Materialize);
      ghost var before := records;
      Track(CredentialsService);
      StillRecorded(before, records);
      Install(Materialize, f.materialize, EXECUTABLE);
      Install(CredentialsService, f.service, READABLE);
    }

    /** Put one recorded file back; `done` unless the process died. */
    method RestoreOne(i: nat) returns (done: bool)
      requires Valid() && complete && i < |records|
      modifies this`files, this`budget
      ensures Keeps() && records == old(records)
      ensures done <==> old(budget) >= Cost(records[i])
      ensures done ==> budget == old(budget) - Cost(records[i])
      ensures done ==> Same(records[i].path, files, origin)
      ensures forall p :: p != records[i].path ==> At(files, p) == At(old(files), p)
    {
      var p, file := records[i].path, records[i].file;
      assert Recorded(records, p);
      done := budget >= Cost(records[i]);
      if file.None? {
        Change(p, None);
      } else if p.Config? {
        Change(p, Some(File(file.value.bytes, PRIVATE, 10000, 10000)));
      } else {
        Change(p, Some(File(file.value.bytes, PRIVATE, 0, 0)));
        Change(p, Some(File(file.value.bytes, file.value.mode, 0, 0)));
        Change(p, file);
      }
    }

    /** `rollback` in phase `closed` or any other: every recorded file is put back, except that
        a release that closed keeps its accepted credential. Three operations per file suffice. The
        credential comes first, so a rollback that dies may leave only it restored. */
    method Rollback(closed: bool) returns (done: bool)
      requires Valid()
      modifies this`files, this`budget
      ensures Valid() && records == old(records) && complete == old(complete) && started == old(started)
      ensures done ==> complete && forall p: Path :: !(closed && p.Credential?) ==> Same(p, files, origin)
      ensures closed ==> At(files, Credential) == At(old(files), Credential)
      ensures complete && old(budget) >= 3 * |records| ==> done
      ensures complete && !closed && old(budget) >= 3 ==> At(files, Credential) == At(origin, Credential)
      ensures !complete ==> files == old(files)
    {
      if !complete { return false; }
      var i := 0;
      while i < |records|
        invariant Keeps() && records == old(records) && i <= |records|
        invariant budget + 3 * i >= old(budget)
        invariant forall k :: 0 <= k < i && !(closed && records[k].path.Credential?) ==>
          Same(records[k].path, files, origin)
        invariant closed ==> At(files, Credential) == At(old(files), Credential)
      {
        if !(closed && records[i].path.Credential?) {
          ghost var before := files;
          done := RestoreOne(i);
          if !done {
            assert i > 0 && !closed ==> Same(records[0].path, before, origin) && records[0].path != records[i].path;
            return;
          }
          forall k | 0 <= k < i && !(closed && records[k].path.Credential?)
            ensures Same(records[k].path, files, origin)
          {
            assert Same(records[k].path, before, origin) && records[k].path != records[i].path;
          }
        }
        i := i + 1;
      }
      AllRestored(records, files, origin, closed);
      done := true;
    }
  }

  /** File operations needed to put one record back. */
  function Cost(r: Record<Path, File>): nat {
    if r.file.None? || r.path.Config? then 1 else 3
  }

  lemma AllRestored(records: Records, files: Files, origin: Files, closed: bool)
    requires Faithful(records, files, origin)
    requires forall k :: 0 <= k < |records| && !(closed && records[k].path.Credential?) ==>
      Same(records[k].path, files, origin)
    ensures forall p: Path :: !(closed && p.Credential?) ==> Same(p, files, origin)
  {
    forall p: Path | !(closed && p.Credential?) ensures Same(p, files, origin) {
      if Recorded(records, p) {
        var k :| 0 <= k < |records| && records[k].path == p;
        assert Same(records[k].path, files, origin);
      }
    }
  }

  /* ---------- whole runs ---------- */

  /** Each operation runs in a process of its own, which may die after `budget` file operations. */
  datatype Step =
    | DoCapture(user: Option<nat>, budget: nat)
    | DoCredential(bytes: string, budget: nat)
    | DoInstall(account: nat, payload: Payload, owner: File, budget: nat)
    | DoEdit(file: Option<File>)
    | DoRollback(closed: bool, budget: nat)

  /** Restored as it was: everything but of `config.yaml`, whose bytes are. */
  lemma SameMeans(after: Files, initial: Files, closed: bool)
    requires forall p: Path :: !(closed && p.Credential?) ==> Same(p, after, initial)
    ensures forall p: Path :: !p.Config? && !(closed && p.Credential?) ==> At(after, p) == At(initial, p)
    ensures Config in after <==> Config in initial
    ensures Config in initial ==> after[Config].bytes == initial[Config].bytes
  {
    assert Same(Config, after, initial);
  }

  /** One step; the journal admits no change before the capture is complete. */
  method Take(host: Host, step: Step)
    requires host.Valid()
    modifies host
    ensures host.Valid() && (old(host.complete) ==> host.complete) && (old(host.started) ==> host.started)
    ensures step.DoCapture? && !old(host.started) && step.budget > 2 ==> host.complete
    ensures step.DoCapture? ==> host.files == old(host.files)
    ensures step.DoCredential? && host.complete && step.budget > 0 ==>
      host.files == Put(old(host.files), Credential, step.bytes, PRIVATE)
    ensures step.DoInstall? && host.complete && step.budget > 29 ==>
      host.files == RuntimeFiles(old(host.files), step.account, step.payload, step.owner)
    ensures step.DoEdit? && host.complete ==> host.files == Changed(old(host.files), Config, step.file)
    ensures step.DoRollback? && host.complete && !step.closed && step.budget >= 3 * |old(host.records)| ==>
      Restored(host.files, host.origin)
  {
    host.budget := if step.DoEdit? then 1 else step.budget;
    match step
    case DoCapture(user, _) => var _ := host.Capture(user);
    case DoCredential(bytes, _) => if host.complete { host.InstallCredential(bytes); }
    case DoInstall(account, payload, owner, _) => if host.complete { host.InstallRuntime(account, payload, owner); }
    case DoEdit(file) => if host.complete { host.EditConfig(file); }
    case DoRollback(closed, _) => var _ := host.Rollback(closed);
  }

  /** Every file is as it was. */
  ghost predicate Restored(files: Files, origin: Files) {
    forall p :: Same(p, files, origin)
  }

  predicate Captures(step: Step) {
    step.DoCapture? && step.budget > 2
  }

  /** Any steps in any order. */
  method Perform(host: Host, steps: seq<Step>)
    requires host.Valid()
    modifies host
    ensures host.Valid()
    ensures !old(host.started) && steps != [] && Captures(steps[0]) ==> host.complete
  {
    for k := 0 to |steps|
      invariant host.Valid() && (k == 0 ==> host.started == old(host.started))
      invariant !old(host.started) && k > 0 && Captures(steps[0]) ==> host.complete
    {
      Take(host, steps[k]);
    }
  }

  /** After any run, however its processes died, a rollback that finishes restores every file
      as it was before the release, but for the credential of a release that closed. One that dies after
      its first file has put the old credential back; one that lives long enough finishes. */
  method RunThenRollback(initial: Files, steps: seq<Step>, closed: bool, budget: nat)
    returns (captured: bool, recorded: nat, before: Files, after: Files, done: bool)
    ensures steps != [] && Captures(steps[0]) ==> captured
    ensures captured && !closed && budget >= 3 ==> At(after, Credential) == At(initial, Credential)
    ensures captured && budget >= 3 * recorded ==> done
    ensures done ==> forall p: Path :: !(closed && p.Credential?) ==> Same(p, after, initial)
    ensures done ==> forall p: Path :: !p.Config? && !(closed && p.Credential?) ==> At(after, p) == At(initial, p)
    ensures done ==> (Config in after <==> Config in initial)
    ensures done && Config in initial ==> after[Config].bytes == initial[Config].bytes
    ensures closed ==> At(after, Credential) == At(before, Credential)
  {
    var host := new Host(initial);
    Perform(host, steps);
    captured, recorded, before := host.complete, |host.records|, host.files;
    host.budget := budget;
    done := host.Rollback(closed);
    after := host.files;
    if done { SameMeans(after, initial, closed); }
  }

  /** A release that is captured, gets its key and its runtime, and is rolled back. */
  method InstallThenRollback(initial: Files, user: nat, key: string, f: Payload, owner: File)
    returns (installed: Files, after: Files)
    ensures installed == RuntimeFiles(Put(initial, Credential, key, PRIVATE), user, f, owner)
    ensures Restored(after, initial)
  {
    var host := Installed(initial, user, key, f, owner);
    installed := host.files;
    after := UndoAll(host);
  }

  method Installed(initial: Files, user: nat, key: string, f: Payload, owner: File) returns (host: Host)
    ensures fresh(host) && host.Valid() && host.complete && host.origin == initial
    ensures host.files == RuntimeFiles(Put(initial, Credential, key, PRIVATE), user, f, owner)
  {
    host := new Host(initial);
    Take(host, DoCapture(Some(user), 3));
    Take(host, DoCredential(key, 1));
    Take(host, DoInstall(user, f, owner, 30));
  }

  method UndoAll(host: Host) returns (after: Files)
    requires host.Valid() && host.complete
    modifies host
    ensures Restored(after, host.origin)
  {
    Take(host, DoRollback(false, 3 * |host.records|));
    after := host.files;
  }

  /** The first rollback from `closed` keeps the accepted credential; a second one, now from
      `rolled-back`, replaces it by the one from before the release. */
  method RollbackTwice(initial: Files, steps: seq<Step>, first: nat, second: nat)
    returns (captured: bool, recorded: nat, accepted: Option<File>, kept: Option<File>, restored: Option<File>,
             done: bool)
    ensures steps != [] && Captures(steps[0]) ==> captured
    ensures captured && first >= 3 * recorded && second >= 3 * recorded ==> done
    ensures done ==> kept == accepted && restored == At(initial, Credential)
  {
    var host := new Host(initial);
    Perform(host, steps);
    captured, recorded, accepted := host.complete, |host.records|, At(host.files, Credential);
    host.budget := first;
    var ended := host.Rollback(true);
    kept := At(host.files, Credential);
    host.budget := second;
    done := host.Rollback(false);
    assert done ==> Same(Credential, host.files, initial);
    restored := At(host.files, Credential);
    done := done && ended;
  }
}
