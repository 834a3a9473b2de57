/** The teardown of a disposable certification fixture (`lifecycle_fixture.py`): checkpoint flags
    gate every destructive step. Preparation may stop anywhere; any number of cleanups follow, each
    of which may die before any effect or checkpoint, or meet failing commands. */
module FixtureCleanup {

  type Name = string

  /** The checkpoints of `lifecycle.json`. */
  datatype Flags = Flags(poolOwned: bool, guestReady: bool, schedulerReady: bool, credentialsCleaned: bool,
                         guestPurged: bool, secretsPurged: bool, domainDestroyed: bool, purgeStarted: bool,
                         vmDestroyed: bool, privatePurged: bool)

  /** What exists: the domain with its firmware variables and TPM, the pool directory, its owner
      cookie and other files, the certifier's secrets, the private directory. */
  datatype World = World(domain: bool, nvram: bool, tpm: bool, pool: bool, cookie: bool, files: set<Name>,
                         secrets: bool, private: bool)

  datatype Event = Reconciled | Purged | SecretsRemoved | DomainRemoved | Unlinked(name: Name) | CookieRemoved
    | PoolRemoved
    | PrivateRemoved

  predicate Destructive(e: Event) {
    !e.Reconciled? && !e.Purged?
  }

  /** Nothing is destroyed before the reconciliation a scheduled fixture needs and the purge one
      that was booted needs. */
  ghost predicate Lawful(scheduled: bool, booted: bool, log: seq<Event>) {
    forall i :: 0 <= i < |log| && Destructive(log[i]) ==>
      (scheduled ==> Reconciled in log[..i]) && (booted ==> Purged in log[..i])
  }

  lemma LawfulNext(scheduled: bool, booted: bool, log: seq<Event>, e: Event)
    requires Lawful(scheduled, booted, log)
    requires Destructive(e) ==> (scheduled ==> Reconciled in log) && (booted ==> Purged in log)
    ensures Lawful(scheduled, booted, log + [e])
  {
    var all := log + [e];
    forall i | 0 <= i < |all| && Destructive(all[i])
      ensures (scheduled ==> Reconciled in all[..i]) && (booted ==> Purged in all[..i])
    {
      assert all[..i] == if i < |log| then log[..i] else log;
    }
  }

  /** How far preparation got. */
  ghost predicate Prepared(f: Flags, w: World) {
    && f == Flags(f.poolOwned, f.guestReady, f.schedulerReady, false, false, false, false, false, false, false)
    && (f.poolOwned ==> w.pool && w.cookie) && (f.guestReady ==> f.poolOwned && w.domain)
    && (f.schedulerReady ==> f.guestReady)
    && (w.cookie || |w.files| > 0 ==> w.pool) && (|w.files| > 0 ==> w.cookie)
    && (w.domain ==> f.poolOwned) && (w.nvram || w.tpm ==> w.domain)
    && (w.secrets ==> f.guestReady)
  }

  /** The two irreversible obligations, as far as they have been met. */
  datatype Done = Done(reconciled: bool, purged: bool)

  function After(done: Done, e: Event): Done {
    Done(done.reconciled || e.Reconciled?, done.purged || e.Purged?)
  }

  /** What every moment of every cleanup keeps. */
  ghost predicate Consistent(f: Flags, w: World, done: Done) {
    match done case Done(reconciled, purged) =>
      && (f.credentialsCleaned ==> reconciled) && (f.guestPurged ==> purged)
      && (w.cookie || |w.files| > 0 ==> w.pool) && (w.nvram || w.tpm ==> w.domain)
      && (w.domain ==> f.poolOwned && !f.domainDestroyed)
      && (f.guestReady || f.schedulerReady || f.domainDestroyed || f.vmDestroyed ==> f.poolOwned)
      && (f.guestReady && !f.guestPurged ==> w.domain)
      && (f.domainDestroyed ==> !w.domain && (f.guestReady ==> f.guestPurged))
      && (f.domainDestroyed ==> (f.schedulerReady ==> f.credentialsCleaned))
      && (f.purgeStarted ==> f.domainDestroyed)
      && (f.poolOwned && !f.purgeStarted ==> w.pool && w.cookie)
      && (f.purgeStarted && |w.files| > 0 ==> w.cookie)
      && (f.vmDestroyed ==> f.purgeStarted && !w.pool)
      && (w.secrets ==> f.poolOwned && !f.secretsPurged) && (f.domainDestroyed ==> f.secretsPurged)
      && (f.privatePurged ==> !w.private)
  }

  lemma SecretsKeep(f: Flags, w: World, done: Done)
    requires Consistent(f, w, done)
    requires (f.schedulerReady ==> f.credentialsCleaned) && (f.guestReady ==> f.guestPurged)
    ensures Consistent(f, w.(secrets := false), After(done, SecretsRemoved))
    ensures Consistent(f.(secretsPurged := true), w.(secrets := false), After(done, SecretsRemoved))
    ensures (f.schedulerReady ==> done.reconciled) && (f.guestReady ==> done.purged)
  {
  }

  lemma DomainKeeps(f: Flags, w: World, done: Done)
    requires Consistent(f, w, done) && f.poolOwned && !f.domainDestroyed && f.secretsPurged
    requires (f.schedulerReady ==> f.credentialsCleaned) && (f.guestReady ==> f.guestPurged)
    ensures var gone := w.(domain := false, nvram := false, tpm := false);
            && Consistent(f, gone, After(done, DomainRemoved))
            && Consistent(f.(domainDestroyed := true), gone, After(done, DomainRemoved))
    ensures !w.domain ==> Consistent(f.(domainDestroyed := true), w, done)
    ensures (f.schedulerReady ==> done.reconciled) && (f.guestReady ==> done.purged)
  {
  }

  datatype Command = Reconcile | Inspect | StartGuest | PurgeGuest | Undefine | VerifyAbsence | Filesystem

  class Fixture {
    var flags: Flags
    var world: World
    var done: Done
    var log: seq<Event>
    /** Effects and checkpoints the running process still performs before it dies. */
    var budget: nat
    /** Commands that fail for the running process. */
    var failing: set<Command>

    ghost predicate Valid() reads this {
      && Lawful(flags.schedulerReady, flags.guestReady, log)
      && (done.reconciled ==> Reconciled in log) && (done.purged ==> Purged in log)
      && Consistent(flags, world, done)
    }

    /** The same fixture: preparation is over. */
    twostate predicate Same() reads this {
      && flags.poolOwned == old(flags.poolOwned) && flags.guestReady == old(flags.guestReady)
      && flags.schedulerReady == old(flags.schedulerReady) && world.files <= old(world.files)
      && budget <= old(budget) && failing == old(failing)
    }

    constructor (f: Flags, w: World)
      requires Prepared(f, w)
      ensures Valid() && flags == f && world == w && log == []
    {
      flags, world, done, log, budget, failing := f, w, Done(false, false), [], 0, {};
    }

    /** One effect of a live process. */
    method Effect(w: World, e: Event)
      requires Valid() && Consistent(flags, w, After(done, e)) && w.files <= world.files
      requires Destructive(e) ==> (flags.schedulerReady ==> done.reconciled) && (flags.guestReady ==> done.purged)
      modifies this`world, this`log, this`done, this`budget
      ensures Valid() && Same()
      ensures old(budget) == 0 ==> unchanged(this)
      ensures old(budget) > 0 ==> world == w && done == After(old(done), e) && budget == old(budget) - 1
      ensures old(budget) > 0 ==> log == old(log) + [e]
    {
      if budget == 0 { return; }
      budget := budget - 1;
      LawfulNext(flags.schedulerReady, flags.guestReady, log, e);
      world, log, done := w, log + [e], After(done, e);
    }

    /** One checkpoint of a live process. */
    method Save(f: Flags)
      requires Valid() && Consistent(f, world, done)
      requires f.schedulerReady == flags.schedulerReady && f.guestReady == flags.guestReady
      requires f.poolOwned == flags.poolOwned
      modifies this`flags, this`budget
      ensures Valid() && Same()
      ensures if old(budget) == 0 then unchanged(this) else flags == f && budget == old(budget) - 1
    {
      if budget == 0 { return; }
      budget := budget - 1;
      flags := f;
    }

    /** An effect and the checkpoint that records it. */
    method Step(w: World, e: Event, f: Flags) returns (alive: bool)
      requires Valid() && Consistent(flags, w, After(done, e)) && Consistent(f, w, After(done, e))
      requires w.files == world.files
      requires f.schedulerReady == flags.schedulerReady && f.guestReady == flags.guestReady
      requires f.poolOwned == flags.poolOwned
      requires Destructive(e) ==> (flags.schedulerReady ==> done.reconciled) && (flags.guestReady ==> done.purged)
      modifies this`flags, this`world, this`log, this`done, this`budget
      ensures Valid() && Same()
      ensures flags == old(flags) || flags == f
      ensures world == old(world) || world == w
      ensures alive <==> budget > 0
      ensures alive ==> flags == f && world == w && budget == old(budget) - 2
      ensures alive <==> old(budget) > 2
      ensures old(budget) > 0 ==> world == w && log == old(log) + [e]
    {
      Effect(w, e);
      if budget == 0 { return false; }
      Save(f);
      alive := budget > 0;
    }

    predicate Unreconciled() reads this {
      flags.schedulerReady && !flags.credentialsCleaned
    }

    predicate Unpurged() reads this {
      flags.guestReady && !flags.guestPurged
    }

    /** The credential reconciliation at the head of `cleanup`. */
    method Credentials() returns (ok: bool)
      requires Valid()
      modifies this`flags, this`world, this`log, this`done, this`budget
      ensures Valid() && Same() && world == old(world)
      ensures flags == old(flags).(credentialsCleaned := flags.credentialsCleaned)
      ensures ok ==> budget > 0 && (flags.schedulerReady ==> flags.credentialsCleaned)
      ensures ok <==> if old(Unreconciled()) then Reconcile !in failing && old(budget) > 2 else budget > 0
      ensures ok ==> budget == old(budget) - if old(Unreconciled()) then 2 else 0
      ensures !old(Unreconciled()) || Reconcile in failing ==> unchanged(this)
    {
      if flags.schedulerReady && !flags.credentialsCleaned {
        if Reconcile in failing { return false; }
        ok := Step(world, Reconciled, flags.(credentialsCleaned := true));
      } else {
        ok := budget > 0;
      }
    }

    /** The files of the pool, the cookie after all others. */
    method EmptyPool()
      requires Valid() && flags.purgeStarted && !flags.vmDestroyed && world.cookie
      modifies this`world, this`log, this`done, this`budget
      ensures Valid() && Same() && flags == old(flags)
      ensures world == old(world).(files := world.files, cookie := world.cookie)
      ensures budget > 0 ==> world.files == {} && !world.cookie
      ensures old(budget) > |old(world.files)| + 1 <==> budget > 0
      ensures budget > 0 ==> budget == old(budget) - |old(world.files)| - 1
    {
      while |world.files| > 0 && budget > 0
        invariant Valid() && Same() && flags == old(flags) && world == old(world).(files := world.files)
        invariant budget - |world.files| == old(budget) - |old(world.files)|
        decreases |world.files|
      {
        var name :| name in world.files;
        Effect(world.(files := world.files - {name}), Unlinked(name));
      }
      if budget > 0 {
        Effect(world.(cookie := false), CookieRemoved);
      }
    }

    /** The storage purge begins only with the domain gone and the owner cookie there, and otherwise only
        resumes. */
    predicate MayPurge() reads this {
      && flags.domainDestroyed
      && (if world.pool && world.cookie then Inspect !in failing
          else flags.purgeStarted && (world.pool ==> |world.files| == 0))
    }

    function PurgeCost(): nat reads this {
      if !world.pool then 1 else if world.cookie then |world.files| + 4 else 2
    }

    /** `purge_storage`. */
    method PurgeStorage() returns (ok: bool)
      requires Valid() && flags.poolOwned && !flags.vmDestroyed
      modifies this`flags, this`world, this`log, this`done, this`budget
      ensures Valid() && Same()
      ensures ok ==> budget > 0 && flags.vmDestroyed
      ensures ok <==> old(MayPurge()) && old(budget) > old(PurgeCost())
      ensures ok ==> budget == old(budget) - old(PurgeCost())
      ensures !old(MayPurge()) ==> unchanged(this)
      ensures world.secrets == old(world.secrets) && world.private == old(world.private)
      ensures flags.domainDestroyed == old(flags.domainDestroyed)
    {
      if !flags.domainDestroyed || budget == 0 { return false; }
      if world.pool {
        if world.cookie {
          if Inspect in failing { return false; }
          Save(flags.(purgeStarted := true));
          if budget == 0 { return false; }
          EmptyPool();
          if budget == 0 { return false; }
        } else if !flags.purgeStarted || |world.files| > 0 {
          return false;
        }
        Effect(world.(pool := false), PoolRemoved);
        if budget == 0 { return false; }
      } else if !flags.purgeStarted {
        return false;
      }
      Save(flags.(vmDestroyed := true));
      ok := budget > 0;
    }

    /** The guest is purged through the running guest itself. */
    method PurgeGuestData() returns (ok: bool)
      requires Valid() && flags.poolOwned && !flags.domainDestroyed
      modifies this`flags, this`world, this`log, this`done, this`budget
      ensures Valid() && Same() && world == old(world)
      ensures flags == old(flags).(guestPurged := flags.guestPurged)
      ensures ok ==> budget > 0 && (flags.guestReady ==> flags.guestPurged)
      ensures ok <==> if old(Unpurged()) then {StartGuest, PurgeGuest} !! failing && old(budget) > 2 else budget > 0
      ensures ok ==> budget == old(budget) - if old(Unpurged()) then 2 else 0
      ensures !old(Unpurged()) || !({StartGuest, PurgeGuest} !! failing) ==> unchanged(this)
    {
      if flags.guestReady && !flags.guestPurged {
        if StartGuest in failing || !world.domain || PurgeGuest in failing { return false; }
        ok := Step(world, Purged, flags.(guestPurged := true));
      } else {
        ok := budget > 0;
      }
    }

    method PurgeSecrets() returns (ok: bool)
      requires Valid() && flags.poolOwned && !flags.domainDestroyed
      requires (flags.schedulerReady ==> flags.credentialsCleaned) && (flags.guestReady ==> flags.guestPurged)
      modifies this`flags, this`world, this`log, this`done, this`budget
      ensures Valid() && Same()
      ensures world == old(world) || world == old(world).(secrets := false)
      ensures flags == old(flags) || flags == old(flags).(secretsPurged := true)
      ensures ok ==> budget > 0 && flags.secretsPurged && !world.secrets
      ensures ok <==> if !old(flags.secretsPurged) then Filesystem !in failing && old(budget) > 2 else budget > 0
      ensures ok ==> budget == old(budget) - if !old(flags.secretsPurged) then 2 else 0
      ensures old(flags.secretsPurged) || Filesystem in failing ==> unchanged(this)
    {
      if !flags.secretsPurged {
        if Filesystem in failing { return false; }
        SecretsKeep(flags, world, done);
        ok := Step(world.(secrets := false), SecretsRemoved, flags.(secretsPurged := true));
      } else {
        ok := budget > 0;
      }
    }

    /** `destroy` and `undefine`, verified, then checkpointed. */
    method DestroyDomain() returns (ok: bool)
      requires Valid() && flags.poolOwned && !flags.domainDestroyed && flags.secretsPurged
      requires (flags.schedulerReady ==> flags.credentialsCleaned) && (flags.guestReady ==> flags.guestPurged)
      modifies this`flags, this`world, this`log, this`done, this`budget
      ensures Valid() && Same()
      ensures ok ==> budget > 0 && flags.domainDestroyed
      ensures ok <==> && {Inspect, VerifyAbsence} !! failing && (old(world.domain) ==> Undefine !in failing)
                      && old(budget) > if old(world.domain) then 2 else 1
      ensures ok ==> budget == old(budget) - if old(world.domain) then 2 else 1
      ensures world == old(world) || world == old(world).(domain := false, nvram := false, tpm := false)
      ensures world.domain <==> old(world.domain) && (Inspect in failing || Undefine in failing || old(budget) == 0)
      ensures flags == old(flags) || flags == old(flags).(domainDestroyed := true)
      ensures !ok && flags.domainDestroyed ==> {Inspect, VerifyAbsence} !! failing && budget == 0
    {
      if Inspect in failing || budget == 0 { return false; }
      DomainKeeps(flags, world, done);
      if world.domain {
        if Undefine in failing { return false; }
        Effect(world.(domain := false, nvram := false, tpm := false), DomainRemoved);
      }
      if VerifyAbsence in failing || budget == 0 { return false; }
      Save(flags.(domainDestroyed := true));
      ok := budget > 0;
    }

    /** The commands that must succeed before the storage of a living fixture is purged do. */
    predicate Dismantles() reads this {
      && {Inspect, VerifyAbsence} !! failing && (Unpurged() ==> {StartGuest, PurgeGuest} !! failing)
      && (!flags.secretsPurged ==> Filesystem !in failing) && (world.domain ==> Undefine !in failing)
    }

    /** The guest's data, the secrets, the domain. */
    method Dismantle() returns (ok: bool)
      requires Valid() && flags.poolOwned && !flags.domainDestroyed && !flags.vmDestroyed
      requires flags.schedulerReady ==> flags.credentialsCleaned
      modifies this`flags, this`world, this`log, this`done, this`budget
      ensures Valid() && Same() && world.files == old(world.files) && world.private == old(world.private)
      ensures flags.vmDestroyed == old(flags.vmDestroyed)
      ensures ok ==> budget > 0 && flags.domainDestroyed && !world.secrets && !world.domain
      ensures ok ==> budget >= old(budget) - 6 && old(Dismantles())
      ensures old(budget) > 6 && old(Dismantles()) ==> ok
      ensures Inspect in failing ==> unchanged(this)
    {
      if Inspect in failing { return false; }
      ok := PurgeSecretData();
      if !ok { return; }
      ok := DestroyDomain();
    }

    /** What the guest and the certifier hold. */
    method PurgeSecretData() returns (ok: bool)
      requires Valid() && flags.poolOwned && !flags.domainDestroyed
      requires flags.schedulerReady ==> flags.credentialsCleaned
      modifies this`flags, this`world, this`log, this`done, this`budget
      ensures Valid() && Same() && (world == old(world) || world == old(world).(secrets := false))
      ensures flags.domainDestroyed == old(flags.domainDestroyed) && flags.vmDestroyed == old(flags.vmDestroyed)
      ensures flags.credentialsCleaned == old(flags.credentialsCleaned)
      ensures ok ==> budget > 0 && flags.secretsPurged && (flags.guestReady ==> flags.guestPurged)
      ensures ok ==> budget >= old(budget) - 4 && (old(Unpurged()) ==> {StartGuest, PurgeGuest} !! failing)
      ensures ok && !old(flags.secretsPurged) ==> Filesystem !in failing
      ensures old(Unpurged()) && !({StartGuest, PurgeGuest} !! failing) ==> !ok
      ensures !ok ==> old(budget) <= 4 || (old(Unpurged()) && !({StartGuest, PurgeGuest} !! failing))
                      || (!old(flags.secretsPurged) && Filesystem in failing)
    {
      ok := PurgeGuestData();
      if !ok { return; }
      ok := PurgeSecrets();
    }

    /** The middle of `cleanup`: what is left of the virtual machine. */
    method RemoveMachine() returns (ok: bool)
      requires Valid() && flags.poolOwned && !flags.vmDestroyed && (flags.schedulerReady ==> flags.credentialsCleaned)
      modifies this`flags, this`world, this`log, this`done, this`budget
      ensures Valid() && Same() && world.private == old(world.private)
      ensures ok ==> budget > 0 && flags.vmDestroyed && !world.secrets
      ensures failing == {} && old(budget) > 10 + |old(world.files)| ==>
        ok && budget >= old(budget) - 10 - |old(world.files)|
      ensures old(flags.domainDestroyed) && VerifyAbsence in failing ==> !ok && unchanged(this)
      ensures ok && !old(flags.domainDestroyed) ==> old(Dismantles())
    {
      if flags.domainDestroyed {
        if VerifyAbsence in failing { return false; }
      } else {
        assert failing == {} ==> Dismantles();
        ok := Dismantle();
        if !ok { return; }
      }
      ok := PurgeStorage();
    }

    /** `cleanup`. A cleanup that returns has left nothing of an owned fixture, and one that meets
        no failure and does not die returns, whatever the earlier ones had left. */
    method Cleanup() returns (finished: bool)
      requires Valid()
      modifies this`flags, this`world, this`log, this`done, this`budget
      ensures Valid() && Same()
      ensures finished ==> !world.private && !world.secrets && flags.privatePurged
      ensures finished && old(Unreconciled()) ==> Reconcile !in failing
      ensures finished && old(world.private) ==> Filesystem !in failing
      ensures finished && flags.poolOwned ==> !world.domain && !world.nvram && !world.tpm && !world.pool
      ensures finished && flags.poolOwned ==> !world.cookie && world.files == {}
      ensures failing == {} && old(budget) > 15 + |old(world.files)| ==> finished
      ensures finished ==> budget > 0
    {
      finished := Credentials();
      if !finished { return; }
      if flags.poolOwned && !flags.vmDestroyed {
        finished := RemoveMachine();
        if !finished { return; }
      }
      finished := RemovePrivate();
    }

    /** The private directory, last. */
    method RemovePrivate() returns (ok: bool)
      requires Valid() && (flags.schedulerReady ==> flags.credentialsCleaned)
      requires flags.poolOwned ==> flags.vmDestroyed
      modifies this`flags, this`world, this`log, this`done, this`budget
      ensures Valid() && Same()
      ensures ok ==> budget > 0 && !world.private && flags.privatePurged && world == old(world).(private := false)
      ensures ok <==>
        (old(world.private) ==> Filesystem !in failing) && old(budget) > if old(world.private) then 2 else 1
    {
      if world.private {
        if Filesystem in failing || budget == 0 { return false; }
        Effect(world.(private := false), PrivateRemoved);
      }
      if budget == 0 { return false; }
      Save(flags.(privatePurged := true));
      ok := budget > 0;
    }
  }

  /** `preflight`, `inputs`, `prepare` and `enroll_candidate` as far as they leave traces, cut after
      `steps` of them. The pool exists for a moment before its ownership is recorded. */
  method Prepare(steps: nat, media: set<Name>, disks: set<Name>, tpm: bool) returns (f: Flags, w: World)
    ensures Prepared(f, w)
    ensures f == Flags(steps >= 4, steps >= 7, steps >= 9, false, false, false, false, false, false, false)
    ensures w == World(steps >= 6, steps >= 6, steps >= 6 && tpm, steps >= 2, steps >= 3,
                       if steps <= 4 then {} else if steps == 5 then media else media + disks, steps >= 8, steps >= 1)
  {
    f := Flags(false, false, false, false, false, false, false, false, false, false);
    w := World(false, false, false, false, false, {}, false, false);
    if steps == 0 { return; }
    w := w.(private := true);
    if steps == 1 { return; }
    w := w.(pool := true);
    if steps == 2 { return; }
    w := w.(cookie := true);
    if steps == 3 { return; }
    f := f.(poolOwned := true);
    if steps == 4 { return; }
    w := w.(files := media);
    if steps == 5 { return; }
    w := w.(files := media + disks, domain := true, nvram := true, tpm := tpm);
    if steps == 6 { return; }
    f := f.(guestReady := true);
    if steps == 7 { return; }
    w := w.(secrets := true);
    if steps == 8 { return; }
    f := f.(schedulerReady := true);
  }

  /** A cleanup process: it dies after `budget` effects, and these commands fail for it. */
  datatype Attempt = Attempt(budget: nat, failing: set<Command>)

  /** No command fails, and the process lives long enough for the files there were. */
  predicate Undisturbed(a: Attempt, w: World) {
    a.failing == {} && a.budget > 15 + |w.files|
  }

  lemma FewerFiles(some: set<Name>, all: set<Name>)
    requires some <= all
    ensures |some| <= |all|
  {
    var rest := all - some;
    assert all == some + rest;
  }

  /** Any attempts after any unfinished preparation: nothing was destroyed too early, and one more
      attempt without failures, long enough for the files that were there, leaves nothing. */
  method Run(f: Flags, w: World, attempts: seq<Attempt>)
    returns (log: seq<Event>, finished: seq<bool>, left: World, done: bool)
    requires Prepared(f, w)
    ensures |finished| == |attempts|
    ensures forall i :: 0 <= i < |attempts| && Undisturbed(attempts[i], w) ==> finished[i]
    ensures forall i :: 0 <= i < |attempts| && attempts[i].budget == 0 ==> !finished[i]
    ensures Lawful(f.schedulerReady, f.guestReady, log)
    ensures done && !left.private && !left.secrets
    ensures f.poolOwned ==> !left.domain && !left.nvram && !left.tpm && !left.pool && !left.cookie && left.files == {}
  {
    var fixture := new Fixture(f, w);
    finished := [];
    for i := 0 to |attempts|
      invariant fixture.Valid() && fresh(fixture)
      invariant fixture.flags.poolOwned == f.poolOwned && fixture.flags.guestReady == f.guestReady
      invariant fixture.flags.schedulerReady == f.schedulerReady && fixture.world.files <= w.files
      invariant |finished| == i
      invariant forall k :: 0 <= k < i && Undisturbed(attempts[k], w) ==> finished[k]
      invariant forall k :: 0 <= k < i && attempts[k].budget == 0 ==> !finished[k]
    {
      fixture.budget, fixture.failing := attempts[i].budget, attempts[i].failing;
      FewerFiles(fixture.world.files, w.files);
      var ok := fixture.Cleanup();
      finished := finished + [ok];
    }
    fixture.budget, fixture.failing := 16 + |fixture.world.files|, {};
    done := fixture.Cleanup();
    log, left := fixture.log, fixture.world;
  }
}
