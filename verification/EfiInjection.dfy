/** Publishing a signed boot image on the lab's EFI paths: `inject` of `lab_boot.py`.
    Images stand for their contents; comparing digests is comparing images. */
module EfiInjection {
  import opened Options

  type Image = int

  /** Where a run may be cut while it handles one path. A cut copy or upload may leave
      nothing or any partial content behind. */
  datatype Fault =
    | Clean
    | BeforeBackup
    | PartialBackup(left: Option<Image>)
    | AfterBackup
    | PartialUpload(left: Option<Image>)
    | BeforeMove
    | AfterMove

  datatype Outcome = Done | Refused | Cut

  datatype Run = Run(image: Image, faults: seq<Fault>)

  /** One EFI path: the boot file, its `.hermes-original` and its `.hermes-pending`. */
  datatype Slot = Slot(dest: Image, backup: Option<Image>, pending: Option<Image>)

  /** A fault-free pass over this path would succeed. */
  predicate Ready(s: Slot, image: Image) {
    s.dest == image || s.backup.None? || s.backup == Some(s.dest)
  }

  /** The path holds its original, or a replacement whose original is in the backup. */
  predicate Accounted(s: Slot, original: Image) {
    s.dest == original || s.backup == Some(original)
  }

  /** Every path up to the `i`-th is ready. */
  predicate ReadyTo(slots: seq<Slot>, image: Image, i: nat)
    requires i < |slots|
  {
    forall j :: 0 <= j <= i ==> Ready(slots[j], image)
  }

  class Esp {
    var slots: seq<Slot>
    const original: seq<Image>

    ghost predicate Valid() reads this {
      |slots| == |original| && forall i :: 0 <= i < |slots| ==> Accounted(slots[i], original[i])
    }

    constructor (original: seq<Image>)
      ensures Valid() && this.original == original
      ensures forall i :: 0 <= i < |original| ==> slots[i] == Slot(original[i], None, None)
    {
      this.original := original;
      this.slots := seq(|original|, i requires 0 <= i < |original| => Slot(original[i], None, None));
    }

    /** The run gets as far as uploading the image: it lives and has, or makes, a backup of this content. */
    predicate Uploads(i: nat, fault: Fault)
      requires i < |slots|
      reads this
    {
      && (slots[i].backup.None? || slots[i].backup == Some(slots[i].dest))
      && !fault.BeforeBackup? && !fault.AfterBackup? && !(fault.PartialBackup? && slots[i].backup.None?)
    }

    /** The loop body of `inject` for path `i`. */
    method Publish(i: nat, image: Image, fault: Fault) returns (r: Outcome)
      requires Valid() && i < |slots|
      modifies this
      ensures Valid()
      ensures forall j :: 0 <= j < |slots| && j != i ==> slots[j] == old(slots[j])
      ensures r.Done? <==> slots[i].dest == image && (fault.AfterMove? ==> old(slots[i]).dest == image)
      ensures slots[i].dest != old(slots[i]).dest ==> old(slots[i]).dest == original[i] && slots[i].dest == image
      ensures slots[i].dest != old(slots[i]).dest ==> slots[i].backup == Some(original[i])
      ensures old(slots[i]).dest == image ==> slots[i] == old(slots[i])
      ensures fault.Clean? ==> (r.Done? <==> Ready(old(slots[i]), image))
      ensures old(slots[i]).dest != image ==>
        slots[i].backup == if old(slots[i]).backup.Some? || fault.BeforeBackup? then old(slots[i]).backup
                           else if fault.PartialBackup? then fault.left else Some(old(slots[i]).dest)
      ensures old(slots[i]).dest != image ==>
        slots[i].pending == if !old(Uploads(i, fault)) then old(slots[i]).pending
                            else if fault.PartialUpload? then fault.left
                            else if fault.BeforeMove? then Some(image) else None
      ensures old(slots[i]).dest != image ==>
        (slots[i].dest == image <==> old(Uploads(i, fault)) && !fault.PartialUpload? && !fault.BeforeMove?)
      ensures r.Refused? <==>
        old(slots[i]).dest != image && !fault.BeforeBackup? && !fault.AfterBackup? && !Ready(old(slots[i]), image)
    {
      var s := slots[i];
      if s.dest == image {
        return Done;
      }
      if fault.BeforeBackup? {
        return Cut;
      }
      if s.backup.None? {
        if fault.PartialBackup? {
          slots := slots[i := s.(backup := fault.left)];
          return Cut;
        }
        s := s.(backup := Some(s.dest));
        slots := slots[i := s];
      }
      if fault.AfterBackup? {
        return Cut;
      }
      if s.backup != Some(s.dest) {
        return Refused;
      }
      if fault.PartialUpload? {
        slots := slots[i := s.(pending := fault.left)];
        return Cut;
      }
      s := s.(pending := Some(image));
      slots := slots[i := s];
      if fault.BeforeMove? {
        return Cut;
      }
      slots := slots[i := s.(dest := image, pending := None)];
      r := if fault.AfterMove? then Cut else Done;
    }

    /** `inject`: every path in turn, then a final read of all of them. */
    method Inject(run: Run) returns (r: Outcome)
      requires Valid()
      modifies this
      ensures Valid()
      ensures r.Done? ==> forall i :: 0 <= i < |slots| ==> slots[i].dest == run.image
      ensures forall i :: 0 <= i < |slots| && slots[i].dest != old(slots[i]).dest ==>
        old(slots[i]).dest == original[i] && slots[i].dest == run.image && slots[i].backup == Some(original[i])
      ensures forall i :: 0 <= i < |slots| && old(slots[i]).dest == run.image ==> slots[i] == old(slots[i])
      ensures run.faults == [] ==>
        (r.Done? <==> forall i :: 0 <= i < |slots| ==> Ready(old(slots[i]), run.image))
      ensures run.faults == [] ==> forall i :: 0 <= i < |slots| ==>
        (slots[i].dest != old(slots[i]).dest <==> old(slots[i]).dest != run.image && ReadyTo(old(slots), run.image, i))
    {
      var i := 0;
      while i < |slots|
        invariant Valid() && 0 <= i <= |slots|
        invariant forall j :: 0 <= j < i ==> slots[j].dest == run.image
        invariant forall j :: 0 <= j < |slots| && slots[j].dest != old(slots[j]).dest ==>
          old(slots[j]).dest == original[j] && slots[j].dest == run.image && slots[j].backup == Some(original[j])
        invariant forall j :: i <= j < |slots| ==> slots[j] == old(slots[j])
        invariant forall j :: 0 <= j < |slots| && old(slots[j]).dest == run.image ==> slots[j] == old(slots[j])
        invariant run.faults == [] ==> forall j :: 0 <= j < i ==> Ready(old(slots[j]), run.image)
        invariant forall j :: 0 <= j < i ==> (slots[j].dest != old(slots[j]).dest <==> old(slots[j]).dest != run.image)
      {
        var fault := if i < |run.faults| then run.faults[i] else Clean;
        var step := Publish(i, run.image, fault);
        if !step.Done? {
          return step;
        }
        i := i + 1;
      }
      r := Done;
    }
  }

  function Images(slots: seq<Slot>): (r: seq<Image>)
    ensures |r| == |slots|
  {
    seq(|slots|, i requires 0 <= i < |slots| => slots[i].dest)
  }

  predicate AllHold(images: seq<Image>, image: Image) {
    forall i :: 0 <= i < |images| ==> images[i] == image
  }

  /** Any number of runs, with any images, cut anywhere. `history` gives the boot files
      before the first run and after each one. */
  method Runs(original: seq<Image>, runs: seq<Run>)
    returns (history: seq<seq<Image>>, outcomes: seq<Outcome>, slots: seq<Slot>)
    ensures |history| == |runs| + 1 && |outcomes| == |runs| && |slots| == |original|
    ensures forall k :: 0 <= k < |history| ==> |history[k]| == |original|
    // Each path always holds its original or an image some earlier run published.
    ensures forall k, i :: 0 <= k < |history| && 0 <= i < |original| ==>
      history[k][i] == original[i] || exists j :: 0 <= j < k && history[k][i] == runs[j].image
    // A replaced path is never changed again, whatever image a later run carries.
    ensures forall k, l, i :: 0 <= k <= l < |history| && 0 <= i < |original| && history[k][i] != original[i] ==>
      history[l][i] == history[k][i]
    // A replaced path has its original in the backup.
    ensures forall i :: 0 <= i < |original| ==>
      slots[i].dest == history[|runs|][i] && Accounted(slots[i], original[i])
    // Success means every path holds the image.
    ensures forall k :: 0 <= k < |runs| && outcomes[k].Done? ==> AllHold(history[k + 1], runs[k].image)
  {
    var esp := new Esp(original);
    history, outcomes := [Images(esp.slots)], [];
    var n := 0;
    while n < |runs|
      invariant 0 <= n <= |runs| && |history| == n + 1 && |outcomes| == n
      invariant esp.Valid() && esp.original == original && fresh(esp)
      invariant history[n] == Images(esp.slots)
      invariant forall k :: 0 <= k <= n ==> |history[k]| == |original|
      invariant forall k, i :: 0 <= k <= n && 0 <= i < |original| ==>
        history[k][i] == original[i] || exists j :: 0 <= j < k && history[k][i] == runs[j].image
      invariant forall k, l, i :: 0 <= k <= l <= n && 0 <= i < |original| && history[k][i] != original[i] ==>
        history[l][i] == history[k][i]
      invariant forall k :: 0 <= k < n && outcomes[k].Done? ==> AllHold(history[k + 1], runs[k].image)
    {
      var r := esp.Inject(runs[n]);
      var now := Images(esp.slots);
      forall i | 0 <= i < |original|
        ensures now[i] == original[i] || exists j :: 0 <= j < n + 1 && now[i] == runs[j].image
      {
        if now[i] != history[n][i] {
          assert now[i] == runs[n].image;
        } else if now[i] != original[i] {
          var j :| 0 <= j < n && history[n][i] == runs[j].image;
          assert now[i] == runs[j].image;
        }
      }
      history, outcomes := history + [now], outcomes + [r];
      n := n + 1;
    }
    slots := esp.slots;
  }

  /** After a fresh and undisturbed injection of `first`, an undisturbed run with another image changes
      a path if and only if that path and all before it held `first` originally: nothing was backed up
      there, so it still counts as original. */
  method SecondImage(original: seq<Image>, first: Image, second: Image) returns (before: seq<Image>, after: seq<Image>)
    requires first != second
    ensures |before| == |after| == |original| && AllHold(before, first)
    ensures forall i :: 0 <= i < |original| ==>
      (after[i] != before[i] <==> forall j :: 0 <= j <= i ==> original[j] == first)
    ensures forall i :: 0 <= i < |original| && after[i] != before[i] ==> after[i] == second
  {
    var esp := new Esp(original);
    assert forall i :: 0 <= i < |original| ==> Ready(esp.slots[i], first);
    var done := esp.Inject(Run(first, []));
    before := Images(esp.slots);
    ghost var slots := esp.slots;
    forall i | 0 <= i < |original| ensures Ready(slots[i], second) <==> original[i] == first {
      assert Accounted(slots[i], original[i]) && slots[i].dest == first;
    }
    var again := esp.Inject(Run(second, []));
    after := Images(esp.slots);
  }

  /** "No run with a different image changes a path that holds one" fails when the original boot file
      already was that image. */
  method OriginalIsTheImage() returns (before: Image, after: Image, other: Image)
    ensures before == 1 && after == 2 && other == 1
  {
    var original := [1, 7];
    var images, later := SecondImage(original, 1, 2);
    assert original[1] != 1;
    assert images[0] == 1 && images[1] == 1;
    before, after, other := images[0], later[0], later[1];
  }
}
