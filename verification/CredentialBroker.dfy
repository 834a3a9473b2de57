/** The credential broker of `credentials.py`: lease records, one key per lease, and a
    provider whose answers may be lost. Requests are served one at a time (the server and
    its lock admit no overlap) and each may be cut before any durable effect. */
module CredentialBroker {
  import opened Options
  import opened Histories
  import Text

  type Lease = string
  type Key = string
  type Uid = nat
  datatype Role = Test | Production

  /** `test_project`, `production_project`, `test_uid`, `production_uid`. */
  datatype Policy = Policy(testProject: string, productionProject: Option<string>,
                           testUid: Uid, productionUid: Option<Uid>) {
    /** The checks of `Broker.__init__` on the roles. */
    predicate Valid() {
      && (productionProject.None? <==> productionUid.None?)
      && productionProject != Some(testProject)
      && testUid > 0 && productionUid != Some(0) && productionUid != Some(testUid)
    }

    function UidOf(role: Role): Option<Uid> {
      if role.Test? then Some(testUid) else productionUid
    }
  }

  datatype Stage = Issuing | Ready | Deleted | Revoked
  datatype Record = Record(role: Role, stage: Stage, account: bool)

  /** How far a record has advanced. */
  function Rank(r: Record): nat {
    match r.stage
    case Issuing => if r.account then 1 else 0
    case Ready => 2
    case Deleted => 3
    case Revoked => 4
  }

  datatype Operation = Check | Issue | Read | Revoke
  datatype Message = Malformed | Message(operation: Operation, role: Role, lease: Lease)

  datatype Probe = Unauthorized | Accepted | Unreachable

  /** What the world does during one request: the process dies before its `cut`-th durable
      effect, the provider answers or not, the stored key decrypts or not. */
  datatype Env = Env(cut: nat, account: bool, key: Option<Key>, deleted: bool, probe: Probe, decrypts: bool)

  datatype Reply = Denied | Checked | KeyReply(key: Key) | RevokedReply | Crashed

  /** Everything observable, in order. A key is returned `raw` as the provider sent it, or as it is
      read back from its file. */
  datatype Event =
    | Saved(lease: Lease, rank: nat, role: Role)
    | Posted(lease: Lease)
    | Stored(lease: Lease, key: Key)
    | Returned(lease: Lease, uid: Uid, key: Key, raw: bool)
    | Confirmed(lease: Lease)
    | Rejected(lease: Lease, key: Key)
    | Reported(lease: Lease)

  /* ---------- what a run may look like ---------- */

  /** A key as the provider issued it, or as `secret` reads it back: without surrounding
      white space. */
  predicate Names(shown: Key, key: Key) {
    shown == key || shown == Text.Strip(key)
  }

  ghost predicate KeyOf(past: seq<Event>, l: Lease, shown: Key) {
    exists key :: Stored(l, key) in past && Names(shown, key)
  }

  ghost predicate Shows(past: seq<Event>, l: Lease, shown: Key, raw: bool) {
    exists key :: Stored(l, key) in past && shown == if raw then key else Text.Strip(key)
  }

  /** A confirmed deletion, and after it a 401 for the stored key. */
  ghost predicate DeletedThenRejected(past: seq<Event>, l: Lease) {
    exists i, j, shown :: 0 <= i < j < |past| && past[i] == Confirmed(l) && past[j] == Rejected(l, shown)
      && KeyOf(past, l, shown)
  }

  /** The rule each event obeys, given everything before it. */
  ghost predicate Allowed(p: Policy, past: seq<Event>, e: Event) {
    match e
    case Posted(l) => Posted(l) !in past
    case Stored(l, _) => forall k :: Stored(l, k) !in past
    case Saved(l, rank, role) => forall r: nat, q: Role :: Saved(l, r, q) in past ==> r < rank && q == role
    case Returned(l, uid, key, raw) =>
      && Shows(past, l, key, raw)
      && (exists role :: Saved(l, 2, role) in past && p.UidOf(role) == Some(uid))
      && (forall r: nat, q: Role :: Saved(l, r, q) in past ==> r < 3)
    case Reported(l) => DeletedThenRejected(past, l) && exists role :: Saved(l, 4, role) in past
    case _ => true
  }

  ghost function Rule(p: Policy): (seq<Event>, Event) -> bool {
    (past, e) => Allowed(p, past, e)
  }

  ghost predicate Lawful(p: Policy, log: seq<Event>) {
    Obeyed(Rule(p), log)
  }

  lemma SequenceKept(log: seq<Event>, e: Event, l: Lease)
    requires DeletedThenRejected(log, l)
    ensures DeletedThenRejected(log + [e], l)
  {
    var i, j, shown :|
      0 <= i < j < |log| && log[i] == Confirmed(l) && log[j] == Rejected(l, shown) && KeyOf(log, l, shown);
    var key :| Stored(l, key) in log && Names(shown, key);
    var all := log + [e];
    assert all[i] == log[i] && all[j] == log[j];
    assert Stored(l, key) in all && Names(shown, key);
    assert KeyOf(all, l, shown);
  }

  lemma RejectionCompletes(log: seq<Event>, l: Lease, shown: Key)
    requires Confirmed(l) in log && KeyOf(log, l, shown)
    ensures DeletedThenRejected(log + [Rejected(l, shown)], l)
  {
    var i :| 0 <= i < |log| && log[i] == Confirmed(l);
    var key :| Stored(l, key) in log && Names(shown, key);
    var all := log + [Rejected(l, shown)];
    assert all[i] == Confirmed(l) && all[|log|] == Rejected(l, shown);
    assert Stored(l, key) in all && Names(shown, key);
    assert KeyOf(all, l, shown);
  }

  /* ---------- durable state ---------- */

  datatype Store = Store(records: map<Lease, Record>, keys: map<Lease, Key>, log: seq<Event>)

  /** How the records and key files relate to what has happened. */
  ghost predicate Tied(s: Store, l: Lease) {
    && (l in s.keys ==> Stored(l, s.keys[l]) in s.log)
    && (l !in s.records ==>
          && (forall r: nat, q: Role :: Saved(l, r, q) !in s.log)
          && Posted(l) !in s.log && l !in s.keys && (forall k :: Stored(l, k) !in s.log))
    && (l in s.records ==>
          && (forall r: nat, q: Role :: Saved(l, r, q) in s.log ==> r <= Rank(s.records[l]) && q == s.records[l].role)
          && (Rank(s.records[l]) >= 2 ==> s.records[l].account)
          && (s.records[l].stage.Ready? ==> Saved(l, 2, s.records[l].role) in s.log)
          && (s.records[l].stage.Deleted? || s.records[l].stage.Revoked? ==> Confirmed(l) in s.log)
          && (s.records[l].stage.Revoked? ==> DeletedThenRejected(s.log, l) && Saved(l, 4, s.records[l].role) in s.log))
  }

  ghost predicate Inv(p: Policy, s: Store) {
    Lawful(p, s.log) && forall l :: Tied(s, l)
  }

  function Note(s: Store, e: Event): Store {
    s.(log := s.log + [e])
  }

  function Save(s: Store, l: Lease, r: Record): Store {
    Store(s.records[l := r], s.keys, s.log + [Saved(l, Rank(r), r.role)])
  }

  function Keep(s: Store, l: Lease, k: Key): Store {
    Store(s.records, s.keys[l := k], s.log + [Stored(l, k)])
  }

  /** A lease nothing happened to stays tied. */
  lemma OthersTied(s: Store, t: Store, e: Event, l: Lease)
    requires Tied(s, l) && t.log == s.log + [e] && e.lease != l
    requires l in s.records <==> l in t.records
    requires l in s.records ==> t.records[l] == s.records[l]
    requires l in s.keys <==> l in t.keys
    requires l in s.keys ==> t.keys[l] == s.keys[l]
    ensures Tied(t, l)
  {
    if l in s.records && s.records[l].stage.Revoked? {
      SequenceKept(s.log, e, l);
    }
  }

  lemma NoteInv(p: Policy, s: Store, e: Event)
    requires Inv(p, s) && Allowed(p, s.log, e)
    requires e.Posted? || e.Returned? || e.Confirmed? || e.Rejected? || e.Reported?
    requires e.lease in s.records
    ensures Inv(p, Note(s, e))
  {
    var t := Note(s, e);
    ObeyedNext(Rule(p), s.log, e);
    forall l ensures Tied(t, l) {
      assert Tied(s, l);
      if l != e.lease {
        OthersTied(s, t, e, l);
      } else if s.records[l].stage.Revoked? {
        SequenceKept(s.log, e, l);
      }
    }
  }

  lemma SaveInv(p: Policy, s: Store, l: Lease, r: Record)
    requires Inv(p, s)
    requires l in s.records ==> Rank(s.records[l]) < Rank(r) && s.records[l].role == r.role
    requires Rank(r) >= 2 ==> r.account
    requires r.stage.Deleted? || r.stage.Revoked? ==> Confirmed(l) in s.log
    requires r.stage.Revoked? ==> DeletedThenRejected(s.log, l)
    ensures Inv(p, Save(s, l, r))
  {
    var t, e := Save(s, l, r), Saved(l, Rank(r), r.role);
    assert Tied(s, l);
    ObeyedNext(Rule(p), s.log, e);
    if r.stage.Revoked? {
      SequenceKept(s.log, e, l);
    }
    forall m ensures Tied(t, m) {
      assert Tied(s, m);
      if m != l {
        OthersTied(s, t, e, m);
      }
    }
  }

  lemma KeepInv(p: Policy, s: Store, l: Lease, k: Key)
    requires Inv(p, s) && l in s.records && s.records[l].stage.Issuing?
    requires forall q :: Stored(l, q) !in s.log
    ensures Inv(p, Keep(s, l, k))
  {
    var t, e := Keep(s, l, k), Stored(l, k);
    ObeyedNext(Rule(p), s.log, e);
    forall m ensures Tied(t, m) {
      assert Tied(s, m);
      if m != l {
        OthersTied(s, t, e, m);
      }
    }
  }

  lemma DropKeyInv(p: Policy, s: Store, l: Lease)
    requires Inv(p, s)
    ensures Inv(p, s.(keys := s.keys - {l}))
  {
    forall m ensures Tied(s.(keys := s.keys - {l}), m) {
      assert Tied(s, m);
    }
  }

  /** The account and the key are still known. */
  predicate Revocable(s: Store, l: Lease) {
    l in s.records && l in s.keys && s.records[l].account && !s.records[l].stage.Revoked?
  }

  function Last(log: seq<Event>): Event {
    if log == [] then Posted("") else log[|log| - 1]
  }

  /* ---------- what one request leaves ---------- */

  /** `issue` for a lease without a record, as far as the process lives and the provider answers. */
  function Issued(s: Store, uid: Uid, role: Role, l: Lease, env: Env): (Store, Reply) {
    var recorded := Save(s, l, Record(role, Issuing, false));
    var posted := Note(recorded, Posted(l));
    var known := Save(posted, l, Record(role, Issuing, true));
    if env.cut == 0 then (s, Crashed)
    else if env.cut == 1 then (recorded, Crashed)
    else if env.cut == 2 then (posted, Crashed)
    else if !env.account then (posted, Denied)
    else if env.key.None? then (known, Denied)
    else if env.cut == 3 then (known, Crashed)
    else AfterKey(known, uid, role, l, env.key.value, env.cut)
  }

  function AfterKey(s: Store, uid: Uid, role: Role, l: Lease, key: Key, cut: nat): (Store, Reply) {
    var kept := Keep(s, l, key);
    var ready := Save(kept, l, Record(role, Ready, true));
    if cut == 4 then (kept, Crashed)
    else if cut == 5 then (ready, Crashed)
    else (Note(ready, Returned(l, uid, key, true)), KeyReply(key))
  }

  /** All that can happen, in order. */
  function IssueCourse(uid: Uid, role: Role, l: Lease, key: Key): seq<Event> {
    [Saved(l, 0, role), Posted(l), Saved(l, 1, role), Stored(l, key), Saved(l, 2, role), Returned(l, uid, key, true)]
  }

  /** Whatever happens, an issue does the first steps of its course, the account being recorded before
      the key is touched, and answers with the key only at the end. */
  lemma IssueInOrder(s: Store, uid: Uid, role: Role, l: Lease, env: Env) returns (n: nat)
    ensures n <= 6
    ensures var (t, r) := Issued(s, uid, role, l, env);
      && t.log == s.log + IssueCourse(uid, role, l, if env.key.Some? then env.key.value else "")[..n]
      && (r.KeyReply? <==> n == 6) && (r.KeyReply? ==> env.key == Some(r.key))
      && (l in t.keys && l !in s.keys ==> n >= 4)
  {
    var k := if env.key.Some? then env.key.value else "";
    var course := IssueCourse(uid, role, l, k);
    n := if env.cut <= 2 then env.cut else if !env.account then 2 else if env.key.None? || env.cut == 3 then 3
         else if env.cut <= 5 then env.cut else 6;
    assert course[..1] == [course[0]] && course[..2] == course[..1] + [course[1]];
    assert course[..3] == course[..2] + [course[2]] && course[..4] == course[..3] + [course[3]];
    assert course[..5] == course[..4] + [course[4]] && course[..6] == course[..5] + [course[5]];
  }

  /** `revoke` for a recorded lease. */
  function RevokedBy(s: Store, l: Lease, env: Env): (Store, Reply)
    requires l in s.records
  {
    var record := s.records[l];
    if record.stage.Revoked? then (Note(s, Reported(l)), RevokedReply)
    else if !record.account || l !in s.keys || !env.decrypts then (s, Denied)
    else if record.stage.Deleted? then AfterDeletion(s, l, Text.Strip(s.keys[l]), env)
    else if !env.deleted then (s, Denied)
    else if env.cut == 0 then (Note(s, Confirmed(l)), Crashed)
    else AfterDeletion(Save(Note(s, Confirmed(l)), l, record.(stage := Deleted)), l, Text.Strip(s.keys[l]), env)
  }

  function AfterDeletion(s: Store, l: Lease, key: Key, env: Env): (Store, Reply)
    requires l in s.records
  {
    if env.cut <= 1 then (s, Crashed)
    else if !env.probe.Unauthorized? then (s, Denied)
    else AfterRejection(s, l, key, env)
  }

  function AfterRejection(s: Store, l: Lease, key: Key, env: Env): (Store, Reply)
    requires l in s.records
  {
    var rejected := Note(s, Rejected(l, key));
    var revoked := Save(rejected, l, s.records[l].(stage := Revoked));
    var dropped := revoked.(keys := revoked.keys - {l});
    if env.cut == 2 then (rejected, Crashed)
    else if env.cut == 3 then (revoked, Crashed)
    else if env.cut == 4 then (dropped, Crashed)
    else (Note(dropped, Reported(l)), RevokedReply)
  }

  /** `handle`: authenticate the peer against the role, then act on the lease. */
  function Handled(p: Policy, s: Store, uid: Uid, message: Message, env: Env): (Store, Reply) {
    if message.Malformed? || p.UidOf(message.role) != Some(uid) then (s, Denied)
    else
      var l, role := message.lease, message.role;
      if message.operation.Check? then (s, Checked)
      else if l !in s.records then
        if message.operation.Issue? then Issued(s, uid, role, l, env) else (s, Denied)
      else if s.records[l].role != role then (s, Denied)
      else if message.operation.Revoke? then RevokedBy(s, l, env)
      else if !s.records[l].stage.Ready? || l !in s.keys || !env.decrypts then (s, Denied)
      else (Note(s, Returned(l, uid, Text.Strip(s.keys[l]), false)), KeyReply(Text.Strip(s.keys[l])))
  }

  /** The peer is the one user of the role, and the role is enrolled. */
  predicate Authentic(p: Policy, uid: Uid, role: Role) {
    if role.Test? then uid == p.testUid else p.productionUid == Some(uid)
  }

  /** What each request is answered with, and which requests change anything at all. */
  lemma Answers(p: Policy, s: Store, uid: Uid, message: Message, env: Env)
    ensures var (t, r) := Handled(p, s, uid, message, env);
      && (message.Malformed? || !Authentic(p, uid, message.role) ==> t == s && r.Denied?)
      && (message.Message? && Authentic(p, uid, message.role) ==>
            var l, op := message.lease, message.operation;
            && (op.Check? ==> t == s && r.Checked?)
            && (op.Issue? && l !in s.records ==> (t, r) == Issued(s, uid, message.role, l, env))
            && ((op.Read? || op.Revoke?) && l !in s.records ==> t == s && r.Denied?)
            && (!op.Check? && l in s.records && s.records[l].role != message.role ==> t == s && r.Denied?)
            && ((op.Read? || op.Issue?) && l in s.records && s.records[l].role == message.role ==>
                  if s.records[l].stage.Ready? && l in s.keys && env.decrypts
                  then r == KeyReply(Text.Strip(s.keys[l])) && t.log == s.log + [Returned(l, uid, r.key, false)]
                  else t == s && r.Denied?))
  {
  }

  /** The two roles have different users, and neither is root. */
  lemma RolesApart(p: Policy, test: Uid, production: Uid)
    requires p.Valid() && Authentic(p, test, Test) && Authentic(p, production, Production)
    ensures test != production && test > 0 && production > 0
    ensures p.productionProject.Some? && p.productionProject != Some(p.testProject)
  {
  }

  /** All that a revocation can do, in order. */
  function RevokeCourse(l: Lease, role: Role, key: Key): seq<Event> {
    [Confirmed(l), Saved(l, 3, role), Rejected(l, key), Saved(l, 4, role), Reported(l)]
  }

  /** Whatever fails or dies, a revocation that finds the account and the key does a first part of its
      course, from the first step or, with the deletion recorded, from the third; the key file goes
      after the record says revoked and before this is reported. */
  lemma RevokeInOrder(s: Store, l: Lease, env: Env) returns (from: nat, n: nat)
    requires Revocable(s, l) && env.decrypts && !s.records[l].stage.Issuing?
    ensures from <= n <= 5 && from == (if s.records[l].stage.Deleted? then 2 else 0)
    ensures var (t, r) := RevokedBy(s, l, env);
      && t.log == s.log + RevokeCourse(l, s.records[l].role, Text.Strip(s.keys[l]))[from..n]
      && (r.RevokedReply? <==> n == 5) && (n <= 3 ==> l in t.keys) && (n == 5 ==> l !in t.keys)
      && (from == 0 && env.deleted ==> n >= 1) && (env.deleted && env.cut == 0 && from == 0 ==> n == 1)
  {
    var deleted := s.records[l].stage.Deleted?;
    var course := RevokeCourse(l, s.records[l].role, Text.Strip(s.keys[l]));
    from := if deleted then 2 else 0;
    n := if !deleted && !env.deleted then 0
         else if !deleted && env.cut == 0 then 1
         else if env.cut <= 1 || !env.probe.Unauthorized? then 2
         else if env.cut == 2 then 3 else if env.cut <= 4 then 4 else 5;
    assert course[2..3] == [course[2]] && course[2..4] == [course[2]] + [course[3]];
    assert course[2..5] == [course[2]] + [course[3]] + [course[4]];
    assert course[0..1] == [course[0]] && course[0..2] == [course[0]] + [course[1]];
    assert course[0..3] == course[0..2] + [course[2]] && course[0..4] == course[0..3] + [course[3]];
    assert course[0..5] == course[0..4] + [course[4]];
  }

  /** A request to revoke succeeds, and its key file goes, exactly when the lease is revoked already
      or can be, and the provider and the key file play along. */
  lemma RevokesExactly(p: Policy, s: Store, uid: Uid, message: Message, env: Env)
    requires message.Message? && message.operation.Revoke? && p.UidOf(message.role) == Some(uid)
    ensures var (t, r) := Handled(p, s, uid, message, env);
      var l := message.lease;
      && (r.RevokedReply? <==>
            && l in s.records && s.records[l].role == message.role
            && (s.records[l].stage.Revoked?
                || (Revocable(s, l) && env.decrypts && (s.records[l].stage.Deleted? || env.deleted)
                    && env.cut > 4 && env.probe.Unauthorized?)))
      && (r.RevokedReply? ==> t.records[l].stage.Revoked? && (s.records[l].stage.Revoked? || l !in t.keys))
  {
  }

  class Broker {
    const policy: Policy
    var store: Store

    ghost predicate Valid() reads this {
      policy.Valid() && Inv(policy, store)
    }

    constructor (p: Policy)
      requires p.Valid()
      ensures Valid() && policy == p && store == Store(map[], map[], [])
    {
      policy := p;
      store := Store(map[], map[], []);
    }

    /** `issue` for a lease without a record: the record is written before the provider is
        asked, so a lost answer never leads to a second account. */
    method IssueFresh(uid: Uid, role: Role, l: Lease, env: Env) returns (r: Reply)
      requires Valid() && l !in store.records && policy.UidOf(role) == Some(uid)
      modifies this`store
      ensures Valid() && old(store.log) <= store.log
      ensures (store, r) == Issued(old(store), uid, role, l, env)
    {
      assert Tied(store, l);
      var record := Record(role, Issuing, false);
      if env.cut == 0 { return Crashed; }
      SaveInv(policy, store, l, record);
      store := Save(store, l, record);
      if env.cut == 1 { return Crashed; }
      assert Posted(l) !in store.log;
      NoteInv(policy, store, Posted(l));
      store := Note(store, Posted(l));
      if !env.account || env.cut == 2 { return if env.cut == 2 then Crashed else Denied; }
      record := record.(account := true);
      SaveInv(policy, store, l, record);
      store := Save(store, l, record);
      if env.key.None? { return Denied; }
      if env.cut == 3 { return Crashed; }
      assert forall q :: Stored(l, q) !in store.log;
      r := StoreAndReturn(uid, role, l, env.key.value, env.cut);
    }

    /** The account exists: store its key, record the lease ready, answer. */
    method StoreAndReturn(uid: Uid, role: Role, l: Lease, key: Key, cut: nat) returns (r: Reply)
      requires Valid() && policy.UidOf(role) == Some(uid) && l in store.records
      requires store.records[l] == Record(role, Issuing, true)
      requires forall q :: Stored(l, q) !in store.log
      modifies this`store
      ensures Valid() && old(store.log) <= store.log
      ensures (store, r) == AfterKey(old(store), uid, role, l, key, cut)
    {
      KeepInv(policy, store, l, key);
      store := Keep(store, l, key);
      if cut == 4 { return Crashed; }
      var record := Record(role, Ready, true);
      SaveInv(policy, store, l, record);
      store := Save(store, l, record);
      if cut == 5 { return Crashed; }
      r := ReturnKey(uid, role, l, key, true);
    }

    /** Hand the stored key of a ready lease to its caller. */
    method ReturnKey(uid: Uid, role: Role, l: Lease, key: Key, raw: bool) returns (r: Reply)
      requires Valid() && policy.UidOf(role) == Some(uid)
      requires l in store.records && store.records[l].stage.Ready? && store.records[l].role == role
      requires l in store.keys && key == if raw then store.keys[l] else Text.Strip(store.keys[l])
      modifies this`store
      ensures Valid() && store == Note(old(store), Returned(l, uid, key, raw)) && r == KeyReply(key)
    {
      assert Tied(store, l);
      assert Saved(l, 2, role) in store.log;
      assert Shows(store.log, l, key, raw) by {
        assert Stored(l, store.keys[l]) in store.log;
      }
      NoteInv(policy, store, Returned(l, uid, key, raw));
      store := Note(store, Returned(l, uid, key, raw));
      r := KeyReply(key);
    }

    /** `revoke`: delete the account, then demand a 401 for the key itself. */
    method RevokeLease(l: Lease, env: Env) returns (r: Reply)
      requires Valid() && l in store.records
      modifies this`store
      ensures Valid() && old(store.log) <= store.log
      ensures (store, r) == RevokedBy(old(store), l, env)
    {
      assert Tied(store, l);
      var record := store.records[l];
      if record.stage.Revoked? {
        ReportRevoked(l);
        return RevokedReply;
      }
      if !record.account || l !in store.keys || !env.decrypts { return Denied; }
      var key := Text.Strip(store.keys[l]);
      assert KeyOf(store.log, l, key) by {
        assert Stored(l, store.keys[l]) in store.log && Names(key, store.keys[l]);
      }
      if !record.stage.Deleted? {
        if !env.deleted { return Denied; }
        NoteInv(policy, store, Confirmed(l));
        store := Note(store, Confirmed(l));
        if env.cut == 0 { return Crashed; }
        record := record.(stage := Deleted);
        SaveInv(policy, store, l, record);
        store := Save(store, l, record);
      }
      if env.cut <= 1 { return Crashed; }
      if !env.probe.Unauthorized? { return Denied; }
      r := FinishRevocation(l, key, env);
    }

    /** The 401 has been seen: record it, forget the key, report. */
    method FinishRevocation(l: Lease, key: Key, env: Env) returns (r: Reply)
      requires Valid() && l in store.records && store.records[l].stage.Deleted?
      requires KeyOf(store.log, l, key)
      modifies this`store
      ensures Valid() && old(store.log) <= store.log
      ensures (store, r) == AfterRejection(old(store), l, key, env)
    {
      assert Tied(store, l);
      RejectionCompletes(store.log, l, key);
      NoteInv(policy, store, Rejected(l, key));
      store := Note(store, Rejected(l, key));
      if env.cut == 2 { return Crashed; }
      RecordRevoked(l);
      if env.cut == 3 { return Crashed; }
      DropKeyInv(policy, store, l);
      store := store.(keys := store.keys - {l});
      if env.cut == 4 { return Crashed; }
      ReportRevoked(l);
      r := RevokedReply;
    }

    method RecordRevoked(l: Lease)
      requires Valid() && l in store.records && store.records[l].stage.Deleted?
      requires DeletedThenRejected(store.log, l)
      modifies this`store
      ensures Valid() && store == Save(old(store), l, old(store).records[l].(stage := Revoked))
    {
      assert Tied(store, l);
      var record := store.records[l].(stage := Revoked);
      SaveInv(policy, store, l, record);
      store := Save(store, l, record);
    }

    method ReportRevoked(l: Lease)
      requires Valid() && l in store.records && store.records[l].stage.Revoked?
      modifies this`store
      ensures Valid() && store == Note(old(store), Reported(l))
    {
      assert Tied(store, l);
      NoteInv(policy, store, Reported(l));
      store := Note(store, Reported(l));
    }

    /** A fresh lease, its role's user, and a provider that answers in time. */
    predicate CanIssue(uid: Uid, message: Message, env: Env, s: Store) {
      && message.Message? && message.operation.Issue? && policy.UidOf(message.role) == Some(uid)
      && message.lease !in s.records && env.cut > 5 && env.account && env.key.Some?
    }

    /** A ready lease of the same role, and a key file that decrypts. */
    predicate CanRead(uid: Uid, message: Message, env: Env, s: Store) {
      && message.Message? && message.operation.Read? && policy.UidOf(message.role) == Some(uid)
      && message.lease in s.records && s.records[message.lease].role == message.role
      && s.records[message.lease].stage.Ready?
      && message.lease in s.keys && env.decrypts
    }

    /** `handle`: authenticate the peer against the role, then act on the lease. */
    method Handle(uid: Uid, message: Message, env: Env) returns (r: Reply)
      requires Valid()
      modifies this`store
      ensures Valid() && old(store.log) <= store.log
      ensures (store, r) == Handled(policy, old(store), uid, message, env)
      ensures CanIssue(uid, message, env, old(store)) ==> r == KeyReply(env.key.value)
      ensures CanRead(uid, message, env, old(store)) ==> r == KeyReply(Text.Strip(old(store).keys[message.lease]))
    {
      if message.Malformed? || policy.UidOf(message.role) != Some(uid) { return Denied; }
      var l := message.lease;
      if message.operation.Check? { return Checked; }
      if l in store.records && store.records[l].role != message.role { return Denied; }
      if l !in store.records {
        if !message.operation.Issue? { return Denied; }
        r := IssueFresh(uid, message.role, l, env);
      } else if message.operation.Revoke? {
        r := RevokeLease(l, env);
      } else {
        if !store.records[l].stage.Ready? || l !in store.keys || !env.decrypts { return Denied; }
        assert Tied(store, l);
        r := ReturnKey(uid, message.role, l, Text.Strip(store.keys[l]), false);
      }
    }
  }

  datatype Request = Request(uid: Uid, message: Message, env: Env)

  function AllHandled(p: Policy, requests: seq<Request>): Store {
    if requests == [] then Store(map[], map[], [])
    else
      var q := requests[|requests| - 1];
      Handled(p, AllHandled(p, requests[..|requests| - 1]), q.uid, q.message, q.env).0
  }

  /** Any sequence of requests by any peers, each cut anywhere: the whole run is lawful. */
  method Serve(p: Policy, requests: seq<Request>) returns (log: seq<Event>)
    requires p.Valid()
    ensures Lawful(p, log) && log == AllHandled(p, requests).log
  {
    var broker := new Broker(p);
    var i := 0;
    while i < |requests|
      invariant 0 <= i <= |requests| && broker.Valid() && broker.policy == p && fresh(broker)
      invariant broker.store == AllHandled(p, requests[..i])
    {
      assert requests[..i + 1][..i] == requests[..i];
      var _ := broker.Handle(requests[i].uid, requests[i].message, requests[i].env);
      i := i + 1;
    }
    assert requests[..i] == requests;
    log := broker.store.log;
  }

  /* ---------- consequences for every lawful run ---------- */

  /** One account creation per lease. */
  lemma OneCreation(p: Policy, log: seq<Event>, i: int, j: int, l: Lease)
    requires Lawful(p, log) && 0 <= i < j < |log|
    ensures !(log[i] == Posted(l) && log[j] == Posted(l))
  {
    ObeyedAt(Rule(p), log, j);
    assert log[i] == log[..j][i];
  }

  /** A lease's key is only ever handed to one user, the one its role belongs to, and
      never after its deletion has been recorded. */
  lemma KeyGoesToOneUser(p: Policy, log: seq<Event>, i: int, j: int)
    requires Lawful(p, log) && 0 <= i <= j < |log|
    requires log[i].Returned? && log[j].Returned? && log[i].lease == log[j].lease
    ensures log[i].uid == log[j].uid && Text.Strip(log[i].key) == Text.Strip(log[j].key)
    ensures forall k, r: nat, q: Role :: 0 <= k < j && log[k] == Saved(log[j].lease, r, q) ==> r < 3
  {
    var l := log[j].lease;
    ObeyedAt(Rule(p), log, i);
    ObeyedAt(Rule(p), log, j);
    var q1 :| Saved(l, 2, q1) in log[..i] && p.UidOf(q1) == Some(log[i].uid);
    var q2 :| Saved(l, 2, q2) in log[..j] && p.UidOf(q2) == Some(log[j].uid);
    SameRole(p, log, i, j, l, q1, q2);
    ShownIsNamed(log[..i], l, log[i].key, log[i].raw);
    ShownIsNamed(log[..j], l, log[j].key, log[j].raw);
    OneKey(p, log, i, j, l, log[i].key, log[j].key);
    forall k, r: nat, q: Role | 0 <= k < j && log[k] == Saved(l, r, q) ensures r < 3 {
      assert log[..j][k] == log[k];
    }
  }

  lemma ShownIsNamed(past: seq<Event>, l: Lease, shown: Key, raw: bool)
    requires Shows(past, l, shown, raw)
    ensures KeyOf(past, l, shown)
  {
    var key :| Stored(l, key) in past && shown == if raw then key else Text.Strip(key);
    assert Names(shown, key);
  }

  /** What is delivered is the one stored key, raw or stripped. */
  lemma DeliveredKey(p: Policy, log: seq<Event>, i: int, k: Key)
    requires Lawful(p, log) && 0 <= i < |log| && log[i].Returned? && Stored(log[i].lease, k) in log
    ensures log[i].key == if log[i].raw then k else Text.Strip(k)
  {
    ObeyedAt(Rule(p), log, i);
    var m :| Stored(log[i].lease, m) in log[..i] && log[i].key == if log[i].raw then m else Text.Strip(m);
    assert log[..|log|] == log;
    SameStored(p, log, i, |log|, log[i].lease, m, k);
  }

  predicate Delivers(e: Event, l: Lease) {
    e.Returned? && e.lease == l
  }

  /** The lease's key was delivered, raw or read back. */
  ghost predicate Delivered(log: seq<Event>, l: Lease, raw: bool) {
    exists i :: 0 <= i < |log| && Delivers(log[i], l) && log[i].raw == raw
  }

  ghost predicate SameDeliveries(log: seq<Event>, l: Lease) {
    forall i, j :: 0 <= i < |log| && 0 <= j < |log| && Delivers(log[i], l) && Delivers(log[j], l) ==>
      log[i].key == log[j].key
  }

  /** All deliveries of a lease are the same string if and only if the stored key has no outer white
      space, or was never both handed out on issue and read back. */
  lemma DeliveriesAgree(p: Policy, log: seq<Event>, l: Lease, k: Key)
    requires Lawful(p, log) && Stored(l, k) in log
    ensures SameDeliveries(log, l) <==> Text.Stripped(k) || !(Delivered(log, l, true) && Delivered(log, l, false))
  {
    Text.StripFixed(k);
    forall i | 0 <= i < |log| && Delivers(log[i], l)
      ensures log[i].key == if log[i].raw then k else Text.Strip(k)
    {
      DeliveredKey(p, log, i, k);
    }
    if SameDeliveries(log, l) && Delivered(log, l, true) && Delivered(log, l, false) {
      var i :| 0 <= i < |log| && Delivers(log[i], l) && log[i].raw;
      var j :| 0 <= j < |log| && Delivers(log[j], l) && !log[j].raw;
      assert log[i].key == log[j].key;
    }
  }

  /** Any key, issued and then read back in a run without failures. */
  method IssueThenRead(p: Policy, l: Lease, k: Key) returns (issued: Reply, read: Reply, log: seq<Event>)
    requires p.Valid()
    ensures issued == KeyReply(k) && read == KeyReply(Text.Strip(k)) && Lawful(p, log)
    ensures Returned(l, p.testUid, k, true) in log && Returned(l, p.testUid, Text.Strip(k), false) in log
  {
    var broker := new Broker(p);
    issued := IssueOnce(broker, l, k);
    ghost var between := broker.store.log;
    read := ReadOnce(broker, l);
    log := broker.store.log;
    InPrefix(between, log);
  }

  method IssueOnce(broker: Broker, l: Lease, k: Key) returns (r: Reply)
    requires broker.Valid() && l !in broker.store.records
    modifies broker
    ensures broker.Valid() && r == KeyReply(k) && Last(broker.store.log) == Returned(l, broker.policy.testUid, k, true)
    ensures l in broker.store.records && broker.store.records[l] == Record(Test, Ready, true)
    ensures l in broker.store.keys && broker.store.keys[l] == k
  {
    r := broker.Handle(broker.policy.testUid, Message(Issue, Test, l), Env(6, true, Some(k), true, Unauthorized, true));
  }

  method ReadOnce(broker: Broker, l: Lease) returns (r: Reply)
    requires broker.Valid() && l in broker.store.keys
    requires l in broker.store.records && broker.store.records[l] == Record(Test, Ready, true)
    modifies broker
    ensures broker.Valid() && r == KeyReply(Text.Strip(old(broker.store).keys[l]))
    ensures old(broker.store.log) <= broker.store.log
    ensures Last(broker.store.log) == Returned(l, broker.policy.testUid, Text.Strip(old(broker.store).keys[l]), false)
  {
    r := broker.Handle(broker.policy.testUid, Message(Read, Test, l), Env(6, true, None, true, Unauthorized, true));
  }

  lemma InPrefix(before: seq<Event>, log: seq<Event>)
    requires before <= log
    ensures Last(before).Returned? ==> Last(before) in log
    ensures Last(log).Returned? ==> Last(log) in log
  {
    if before != [] { assert log[|before| - 1] == Last(before); }
  }

  /** A key issued with a trailing blank and then read back: two different strings. */
  method PaddedKey() returns (issued: Reply, read: Reply, log: seq<Event>)
    ensures issued == KeyReply("k ") && read == KeyReply("k") && Lawful(Policy("proj_a", None, 1, None), log)
    ensures !SameDeliveries(log, "0123456789abcdef0123456789abcdef")
  {
    PaddedStrip();
    issued, read, log := IssueThenRead(Policy("proj_a", None, 1, None), "0123456789abcdef0123456789abcdef", "k ");
    assert |"k "| != |"k"|;
  }

  lemma PaddedStrip()
    ensures Text.Strip("k ") == "k"
  {
    assert Text.LStrip("k ") == "k ";
    assert "k "[..1] == "k";
    assert Text.RStrip("k ") == Text.RStrip("k") == "k";
  }

  /** Once a revocation has been reported, the lease never yields its key again. */
  lemma NoKeyAfterReport(p: Policy, log: seq<Event>, i: int, j: int)
    requires Lawful(p, log) && 0 <= i < j < |log|
    ensures !(log[i].Reported? && log[j].Returned? && log[i].lease == log[j].lease)
  {
    ObeyedAt(Rule(p), log, i);
    ObeyedAt(Rule(p), log, j);
    forall e | e in log[..i] ensures e in log[..j] {
      var k :| 0 <= k < i && log[..i][k] == e;
      assert log[..j][k] == e;
    }
  }

  lemma SameRole(p: Policy, log: seq<Event>, i: int, j: int, l: Lease, q1: Role, q2: Role)
    requires Lawful(p, log) && 0 <= i <= j <= |log| && Saved(l, 2, q1) in log[..i] && Saved(l, 2, q2) in log[..j]
    ensures q1 == q2
  {
    var a :| 0 <= a < i && log[..i][a] == Saved(l, 2, q1);
    var b :| 0 <= b < j && log[..j][b] == Saved(l, 2, q2);
    SavedOnce(p, log, a, b);
  }

  lemma SavedOnce(p: Policy, log: seq<Event>, a: int, b: int)
    requires Lawful(p, log) && 0 <= a < |log| && 0 <= b < |log|
    requires log[a].Saved? && log[b].Saved? && log[a].lease == log[b].lease
    ensures log[a].role == log[b].role
    ensures log[a].rank == log[b].rank ==> a == b
    ensures a < b ==> log[a].rank < log[b].rank
  {
    if a < b {
      ObeyedAt(Rule(p), log, b);
      assert log[..b][a] == log[a];
    } else if b < a {
      ObeyedAt(Rule(p), log, a);
      assert log[..a][b] == log[b];
    }
  }

  /** Whatever is shown as the key of a lease, early or late, is the same key. */
  lemma OneKey(p: Policy, log: seq<Event>, i: int, j: int, l: Lease, a: Key, b: Key)
    requires Lawful(p, log) && 0 <= i <= j <= |log|
    requires KeyOf(log[..i], l, a) && KeyOf(log[..j], l, b)
    ensures Text.Strip(a) == Text.Strip(b)
  {
    var k :| Stored(l, k) in log[..i] && Names(a, k);
    var m :| Stored(l, m) in log[..j] && Names(b, m);
    SameStored(p, log, i, j, l, k, m);
    StripAgain(a, k);
    StripAgain(b, k);
  }

  lemma StripAgain(shown: Key, key: Key)
    requires Names(shown, key)
    ensures Text.Strip(shown) == Text.Strip(key)
  {
    var _ := Text.StripIsSubstring(key);
    Text.StripFixed(Text.Strip(key));
  }

  lemma SameStored(p: Policy, log: seq<Event>, i: int, j: int, l: Lease, k: Key, m: Key)
    requires Lawful(p, log) && 0 <= i <= j <= |log| && Stored(l, k) in log[..i] && Stored(l, m) in log[..j]
    ensures k == m
  {
    var c :| 0 <= c < i && log[..i][c] == Stored(l, k);
    var d :| 0 <= d < j && log[..j][d] == Stored(l, m);
    assert log[c] == Stored(l, k) && log[d] == Stored(l, m);
    if c < d {
      StoredOnce(p, log, c, d);
    } else if d < c {
      StoredOnce(p, log, d, c);
    }
  }

  lemma StoredOnce(p: Policy, log: seq<Event>, a: int, b: int)
    requires Lawful(p, log) && 0 <= a < b < |log|
    ensures !(log[a].Stored? && log[b].Stored? && log[a].lease == log[b].lease)
  {
    ObeyedAt(Rule(p), log, b);
    assert log[..b][a] == log[a];
  }
}
