/** The all-or-nothing directory swap of `lab_guest.py`. */
module LabRestore {

  type Name = string
  type Content = int

  const UNITS: seq<string> := ["hermes-gateway.service", "hermes-worker.service"]

  /** What may go wrong: services that cannot be inspected or stopped, the n-th rename of
      the swap, the n-th step of the undo, and the n-th service to be started again. */
  datatype Faults = Faults(inspectable: bool, stops: bool, rename: nat, undo: nat, start: nat) {
    /** Every service starts again. */
    predicate Starts() {
      start >= |UNITS|
    }
  }

  function ButLast(names: seq<Name>): seq<Name> {
    if names == [] then [] else names[..|names| - 1]
  }

  lemma LastOf(names: seq<Name>, i: nat)
    requires i < |names| && forall j, k :: 0 <= j < k < |names| ==> names[j] != names[k]
    ensures names[i] !in names[..i] && names[i] in names && ButLast(names[..i + 1]) == names[..i]
    ensures forall t :: t in names[..i + 1] <==> t in names[..i] || t == names[i]
    ensures |names[..i + 1]| == i + 1 && names[..i + 1][i] == names[i]
  {
    assert names[..i + 1] == names[..i] + [names[i]];
  }

  datatype Outcome = Refused | NotStopped | Restored | RolledBack | Stuck

  class Lab {
    var home: map<Name, Content>
    var staged: map<Name, Content>
    var displaced: map<Name, Content>
    var active: set<string>
    var stage: bool

    constructor (home: map<Name, Content>, staged: map<Name, Content>, active: set<string>)
      ensures this.home == home && this.staged == staged && this.displaced == map[] && this.active == active && stage
    {
      this.home, this.staged, this.displaced, this.active, this.stage := home, staged, map[], active, true;
    }

    /** `stop_writers`: remember which units run, stop both, or restart and give up. */
    method StopWriters(f: Faults) returns (ok: bool, prior: seq<string>)
      modifies this`active
      ensures ok ==> (forall u :: u in UNITS ==> u !in active)
      ensures ok ==> (forall u :: u in prior <==> u in UNITS && u in old(active)) && |prior| <= |UNITS|
      ensures ok ==> active == old(active) - (set u | u in UNITS)
      ensures ok <==> f.inspectable && f.stops
      ensures !ok && f.Starts() ==> active == old(active)
    {
      prior := [];
      if !f.inspectable {
        return false, prior;
      }
      var i := 0;
      while i < |UNITS|
        invariant 0 <= i <= |UNITS| && |prior| <= i
        invariant forall u :: u in prior <==> u in UNITS[..i] && u in active
      {
        assert UNITS[..i + 1] == UNITS[..i] + [UNITS[i]];
        if UNITS[i] in active {
          prior := prior + [UNITS[i]];
        }
        i := i + 1;
      }
      assert UNITS[..i] == UNITS;
      active := active - (set u | u in UNITS);
      if !f.stops {
        var _ := Restart(prior, f);
        assert f.Starts() ==> active == old(active);
        return false, prior;
      }
      ok := true;
    }

    /** `restart`: last stopped, first started. */
    method Restart(prior: seq<string>, f: Faults) returns (ok: bool)
      modifies this`active
      ensures ok <==> f.start >= |prior|
      ensures ok ==> active == old(active) + (set u | u in prior)
      ensures old(active) <= active <= old(active) + (set u | u in prior)
    {
      ok := true;
      var i := |prior|;
      while i > 0
        invariant 0 <= i <= |prior|
        invariant active == old(active) + (set u | u in prior[i..])
        invariant f.start >= |prior| - i
      {
        i := i - 1;
        if f.start == |prior| - 1 - i {
          return false;
        }
        assert prior[i..] == [prior[i]] + prior[i + 1..];
        active := active + {prior[i]};
      }
    }

    /** The swap loop: two renames per tree, `moved` lists the trees already moved out. */
    method Swap(trees: seq<Name>, f: Faults) returns (ok: bool, moved: seq<Name>)
      requires forall i, j :: 0 <= i < j < |trees| ==> trees[i] != trees[j]
      requires forall t :: t in trees ==> t in home && t in staged && t !in displaced
      modifies this`home, this`staged, this`displaced
      ensures moved <= trees && (ok ==> moved == trees)
      ensures forall t :: t in moved ==> t in displaced && displaced[t] == old(home)[t]
      ensures forall t :: t in trees && t !in moved ==> t in home && home[t] == old(home)[t]
      ensures forall t :: t !in moved ==> (t in home <==> t in old(home)) && (t in home ==> home[t] == old(home)[t])
      ensures forall t :: t in moved && t in home ==> home[t] == old(staged)[t]
      ensures ok ==> forall t :: t in trees ==> t in home
      ensures ok <==> f.rename >= 2 * |trees|
      ensures ok ==> staged == old(staged) - (set t | t in trees)
      ensures !ok ==> UndoSteps(moved) == f.rename && (forall t :: t in ButLast(moved) ==> t in home)
    {
      moved := [];
      var i := 0;
      while i < |trees|
        invariant 0 <= i <= |trees| && moved == trees[..i] && f.rename >= 2 * i
        invariant forall t :: t in trees[..i] ==>
          t in displaced && displaced[t] == old(home)[t] && t in home && home[t] == old(staged)[t]
        invariant forall t :: t !in trees[..i] ==>
          (t in home <==> t in old(home)) && (t in home ==> home[t] == old(home)[t])
        invariant staged == old(staged) - (set t | t in trees[..i])
      {
        var t := trees[i];
        assert trees[..i + 1] == trees[..i] + [t];
        assert t !in trees[..i];
        if f.rename == 2 * i {
          return false, moved;
        }
        displaced := displaced[t := home[t]];
        home := home - {t};
        moved := moved + [t];
        if f.rename == 2 * i + 1 {
          return false, moved;
        }
        home := home[t := staged[t]];
        staged := staged - {t};
        i := i + 1;
      }
      assert trees[..i] == trees;
      ok := true;
    }

    /** How many operations the undo takes: two for each moved tree, but one if nothing has taken its place. */
    function UndoSteps(moved: seq<Name>): nat reads this {
      2 * |moved| - if moved != [] && moved[|moved| - 1] !in home then 1 else 0
    }

    /** The rollback loop, newest first. Removing a half-swapped tree may itself fail and
        leave it damaged; the original is then still in the stage. */
    method Undo(moved: seq<Name>, f: Faults, ghost original: map<Name, Content>) returns (ok: bool)
      requires forall i, j :: 0 <= i < j < |moved| ==> moved[i] != moved[j]
      requires forall t :: t in moved ==> t in original && t in displaced && displaced[t] == original[t]
      requires forall t :: t in ButLast(moved) ==> t in home
      requires forall t :: t !in moved ==> (t in home <==> t in original) && (t in home ==> home[t] == original[t])
      modifies this`home, this`displaced
      ensures ok ==> home == original
      ensures forall t :: t in moved ==>
        (t in home && home[t] == original[t]) || (t in displaced && displaced[t] == original[t])
      ensures forall t :: t !in moved ==> (t in home <==> t in original) && (t in home ==> home[t] == original[t])
      ensures ok <==> f.undo >= old(UndoSteps(moved))
    {
      var i, left := |moved|, f.undo;
      while i > 0
        invariant 0 <= i <= |moved| && f.undo - left + UndoSteps(moved[..i]) == old(UndoSteps(moved))
        invariant forall t :: t in ButLast(moved[..i]) ==> t in home
        invariant forall t :: t in moved[..i] ==> t in displaced && displaced[t] == original[t]
        invariant forall t :: t !in moved[..i] ==>
          (t in home <==> t in original) && (t in home ==> home[t] == original[t])
      {
        i := i - 1;
        var t := moved[i];
        LastOf(moved, i);
        assert UndoSteps(moved[..i + 1]) == 2 * i + if t in home then 2 else 1;
        ghost var before, had := home, t in home;
        ok, left := PutBack(t, left);
        forall u | u != t ensures (u in home <==> u in before) && (u in home ==> home[u] == before[u]) {
          assert u in home <==> u in home - {t};
          assert u in before <==> u in before - {t};
          assert u in home ==> home[u] == (home - {t})[u];
        }
        if !ok { return; }
        assert UndoSteps(moved[..i]) == 2 * i;
      }
      ok := true;
    }

    /** Put one original back, with `n` operations to go until one fails. */
    method PutBack(t: Name, n: nat) returns (ok: bool, left: nat)
      requires t in displaced
      modifies this`home, this`displaced
      ensures ok <==> n >= if old(t in home) then 2 else 1
      ensures ok ==> left == n - if old(t in home) then 2 else 1
      ensures ok ==> home == old(home)[t := old(displaced)[t]] && displaced == old(displaced) - {t}
      ensures !ok ==> home - {t} == old(home) - {t} && displaced == old(displaced)
    {
      left := n;
      if t in home {
        if left == 0 { return false, left; }
        home, left := home - {t}, left - 1;
      }
      if left == 0 { return false, left; }
      home, displaced := home[t := displaced[t]], displaced - {t};
      return true, left - 1;
    }

    /** `restore`. Writers stay stopped while trees move; an original is deleted, with the
        stage, only after the swap or its complete undo succeeded. */
    method Restore(trees: seq<Name>, f: Faults) returns (r: Outcome)
      requires stage && displaced == map[] && (forall t :: t in trees ==> t in staged)
      requires forall i, j :: 0 <= i < j < |trees| ==> trees[i] != trees[j]
      modifies this
      ensures r.Restored? ==> forall t :: t in trees ==> t in home && home[t] == old(staged)[t]
      ensures r.Restored? ==> forall t :: t !in trees ==> (t in home <==> t in old(home))
      ensures r.Restored? ==> forall t :: t !in trees ==> (t in home ==> home[t] == old(home)[t])
      ensures r.Refused? || r.NotStopped? || r.RolledBack? ==> home == old(home)
      ensures !r.Stuck? && f.Starts() ==> active == old(active)
      ensures r.Stuck? ==> stage && forall u :: u in UNITS ==> u !in active
      ensures r.Stuck? ==> forall t :: t in trees ==>
        t in old(home) && ((t in home && home[t] == old(home)[t]) || (t in displaced && displaced[t] == old(home)[t]))
      ensures r.Refused? <==> exists t :: t in trees && t !in old(home)
      ensures r.Restored? <==> !old(Missing(trees)) && f.inspectable && f.stops && f.rename >= 2 * |trees|
      ensures r.NotStopped? <==> !old(Missing(trees)) && !(f.inspectable && f.stops)
      ensures r.RolledBack? <==>
        !old(Missing(trees)) && f.inspectable && f.stops && f.rename < 2 * |trees| && f.undo >= f.rename
      ensures r.Stuck? <==>
        !old(Missing(trees)) && f.inspectable && f.stops && f.rename < 2 * |trees| && f.undo < f.rename
      ensures f.Starts() ==> (stage <==> r.Stuck?)
      ensures (r.Restored? || r.RolledBack?) && !stage ==> active == old(active)
      ensures r.Restored? ==> staged == old(staged) - (set t | t in trees)
      ensures r.Restored? && stage ==> forall t :: t in trees ==> t in displaced && displaced[t] == old(home)[t]
    {
      if exists t :: t in trees && t !in home {
        stage := false;
        return Refused;
      }
      var ok, prior := StopWriters(f);
      if !ok {
        stage := false;
        return NotStopped;
      }
      ghost var original := home;
      var swapped, moved := Swap(trees, f);
      if !swapped {
        var undone := Undo(moved, f, original);
        if !undone {
          return Stuck;
        }
        var back := Restart(prior, f);
        stage := !back;
        return RolledBack;
      }
      var started := Restart(prior, f);
      if started { stage, displaced := false, map[]; }
      r := Restored;
    }

    predicate Missing(trees: seq<Name>) reads this {
      exists t :: t in trees && t !in home
    }
  }

  /** Every way a restore can end, for any list of trees and a failure at any rename. */
  method RestoreRun(home: map<Name, Content>, staged: map<Name, Content>, active: set<string>,
                    trees: seq<Name>, f: Faults)
    returns (r: Outcome, after: map<Name, Content>, retained: map<Name, Content>, running: set<string>)
    requires forall t :: t in trees ==> t in staged
    requires forall i, j :: 0 <= i < j < |trees| ==> trees[i] != trees[j]
    ensures r.Restored? ==> forall t :: t in after <==> t in home || t in trees
    ensures r.Restored? ==> forall t :: t in after ==> after[t] == if t in trees then staged[t] else home[t]
    ensures r.Refused? || r.NotStopped? || r.RolledBack? ==> after == home
    ensures !r.Stuck? && f.Starts() ==> running == active
    ensures r.Stuck? ==> forall u :: u in UNITS ==> u !in running
    ensures r.Stuck? ==> forall t :: t in trees ==>
      t in home && ((t in after && after[t] == home[t]) || (t in retained && retained[t] == home[t]))
    ensures r.Restored? <==>
      (forall t :: t in trees ==> t in home) && f.inspectable && f.stops && f.rename >= 2 * |trees|
    ensures r.Refused? <==> exists t :: t in trees && t !in home
    ensures r.NotStopped? <==> (forall t :: t in trees ==> t in home) && !(f.inspectable && f.stops)
    ensures r.RolledBack? <==>
      && (forall t :: t in trees ==> t in home) && f.inspectable && f.stops
      && f.rename < 2 * |trees| && f.undo >= f.rename
    ensures r.Stuck? <==>
      && (forall t :: t in trees ==> t in home) && f.inspectable && f.stops
      && f.rename < 2 * |trees| && f.undo < f.rename
  {
    var lab := new Lab(home, staged, active);
    r := lab.Restore(trees, f);
    after, retained, running := lab.home, lab.displaced, lab.active;
  }
}
