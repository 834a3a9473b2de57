/** First-write-wins records of files, as both installers keep them: a file is recorded, as it
    is or as absent, before it is first changed, and never again. */
module UndoLog {
  import opened Options

  datatype Record<P, F> = Record(path: P, file: Option<F>)

  function At<P, F>(files: map<P, F>, p: P): Option<F> {
    if p in files then Some(files[p]) else None
  }

  function Changed<P(!new), F>(files: map<P, F>, p: P, file: Option<F>): (r: map<P, F>)
    ensures At(r, p) == file && forall q :: q != p ==> At(r, q) == At(files, q)
  {
    if file.None? then files - {p} else files[p := file.value]
  }

  predicate Recorded<P(==), F>(records: seq<Record<P, F>>, p: P) {
    exists i :: 0 <= i < |records| && records[i].path == p
  }

  /** The records tell the truth about `origin`, no path twice, and whatever they do not
      mention has not changed. */
  ghost predicate Faithful<P(!new), F>(records: seq<Record<P, F>>, files: map<P, F>, origin: map<P, F>) {
    && (forall i, j :: 0 <= i < j < |records| ==> records[i].path != records[j].path)
    && (forall i :: 0 <= i < |records| ==> records[i].file == At(origin, records[i].path))
    && (forall p :: !Recorded(records, p) ==> At(files, p) == At(origin, p))
  }

  lemma StillRecorded<P(!new), F>(a: seq<Record<P, F>>, b: seq<Record<P, F>>)
    requires a <= b
    ensures forall p :: Recorded(a, p) ==> Recorded(b, p)
  {
    forall p | Recorded(a, p) ensures Recorded(b, p) {
      var i :| 0 <= i < |a| && a[i].path == p;
      assert b[i].path == p;
    }
  }

  /** Recording an unrecorded file as it is now keeps the records faithful. */
  lemma RecordKeeps<P(!new), F>(records: seq<Record<P, F>>, files: map<P, F>, origin: map<P, F>, p: P)
    requires Faithful(records, files, origin) && !Recorded(records, p)
    ensures Faithful(records + [Record(p, At(files, p))], files, origin)
    ensures Recorded(records + [Record(p, At(files, p))], p)
  {
    var more := records + [Record(p, At(files, p))];
    assert more[|records|].path == p;
    StillRecorded(records, more);
  }

  /** Changing a recorded file keeps the records faithful. */
  lemma ChangeKeeps<P(!new), F>(records: seq<Record<P, F>>, files: map<P, F>, origin: map<P, F>, p: P, file: Option<F>)
    requires Faithful(records, files, origin) && Recorded(records, p)
    ensures Faithful(records, Changed(files, p, file), origin)
  {
  }

  /** Files that agree everywhere are equal. */
  lemma SameFiles<P(!new), F>(a: map<P, F>, b: map<P, F>)
    requires forall p :: At(a, p) == At(b, p)
    ensures a == b
  {
    forall p | p in a ensures p in b && a[p] == b[p] {
      assert At(a, p) == At(b, p);
    }
    forall p | p in b ensures p in a {
      assert At(a, p) == At(b, p);
    }
  }
}
