/** The import as the worker runs it: loops over rows, lists that grow, a shared set of seen
    plates, and stores updated step by step, proved against the value model in module Import. */
module Importer {
  import opened Options
  import opened ListingStore
  import opened Import

  /* ----- The passes over one batch ----- */

  function ValidOf(rows: seq<Record>, first: nat): seq<Prepared> {
    if rows == [] then []
    else
      var n := |rows| - 1;
      ValidOf(rows[..n], first) + if rows[n].Valid? then [Prepared(first + n, rows[n].plate)] else []
  }

  // The prepared rows whose number is (or is not) among those already imported, in order.
  function Select(ps: seq<Prepared>, imported: set<nat>, wanted: bool): seq<Prepared> {
    if ps == [] then []
    else
      var n := |ps| - 1;
      Select(ps[..n], imported, wanted) + if (ps[n].row in imported) == wanted then [ps[n]] else []
  }

  // The rows that do (or do not) repeat a taken plate or the plate of an earlier row, in order.
  function Repeating(ps: seq<Prepared>, taken: set<Plate>, wanted: bool): seq<Prepared> {
    if ps == [] then []
    else
      var n := |ps| - 1;
      Repeating(ps[..n], taken, wanted) + if (ps[n].plate in taken + PlatesOf(ps[..n])) == wanted then [ps[n]] else []
  }

  lemma PlatesOfAppend(ps: seq<Prepared>, p: Prepared)
    ensures PlatesOf(ps + [p]) == PlatesOf(ps) + {p.plate}
  {
    assert forall q :: q in ps + [p] <==> q in ps || q == p;
  }

  lemma SelectAppend(ps: seq<Prepared>, p: Prepared, imported: set<nat>, wanted: bool)
    ensures Select(ps + [p], imported, wanted) ==
      if (p.row in imported) == wanted then Select(ps, imported, wanted) + [p] else Select(ps, imported, wanted)
  {
    assert (ps + [p])[..|ps|] == ps;
  }

  lemma RepeatingAppend(ps: seq<Prepared>, p: Prepared, taken: set<Plate>, wanted: bool)
    ensures Repeating(ps + [p], taken, wanted) ==
      if (p.plate in taken + PlatesOf(ps)) == wanted then Repeating(ps, taken, wanted) + [p]
      else Repeating(ps, taken, wanted)
  {
    assert (ps + [p])[..|ps|] == ps;
  }

  // A plate is used by the rows kept so far exactly when it is used by the rows seen so far.
  lemma {:induction false} KeptPlates(ps: seq<Prepared>, taken: set<Plate>)
    ensures taken + PlatesOf(Repeating(ps, taken, false)) == taken + PlatesOf(ps)
    ensures PlatesOf(Repeating(ps, taken, false)) + PlatesOf(Repeating(ps, taken, true)) == PlatesOf(ps)
  {
    if ps != [] {
      var front, last := ps[..|ps| - 1], ps[|ps| - 1];
      KeptPlates(front, taken);
      assert ps == front + [last];
      RepeatingAppend(front, last, taken, false);
      RepeatingAppend(front, last, taken, true);
      PlatesOfAppend(front, last);
      PlatesOfAppend(Repeating(front, taken, false), last);
      PlatesOfAppend(Repeating(front, taken, true), last);
    }
  }

  // The lists the code's passes (validate, drop imported rows, find duplicates) build, against the
  // five lists of the record-by-record split.
  ghost predicate PassesMatch(valid: seq<Prepared>, v: View, s: Split) {
    var candidates := Select(valid, v.imported, false);
    && s.resumed == Select(valid, v.imported, true)
    && s.insert + s.over == Repeating(candidates, v.taken, false)
    && s.repeats == Repeating(candidates, v.taken, true)
  }

  lemma PlatesOfConcat(a: seq<Prepared>, b: seq<Prepared>)
    ensures PlatesOf(a + b) == PlatesOf(a) + PlatesOf(b)
  {
    assert forall q :: q in a + b <==> q in a || q in b;
  }

  // Which plates count as used when a record is judged.
  lemma UsedPlates(valid: seq<Prepared>, v: View, s: Split)
    requires PassesMatch(valid, v, s)
    ensures PlatesOf(s.insert) + PlatesOf(s.over) + PlatesOf(s.repeats) == PlatesOf(Select(valid, v.imported, false))
  {
    KeptPlates(Select(valid, v.imported, false), v.taken);
    PlatesOfConcat(s.insert, s.over);
  }

  lemma CandidateStep(c: seq<Prepared>, p: Prepared, taken: set<Plate>, insert: seq<Prepared>, over: seq<Prepared>,
      repeats: seq<Prepared>)
    requires insert + over == Repeating(c, taken, false) && repeats == Repeating(c, taken, true)
    ensures p.plate in taken + PlatesOf(c) ==>
      insert + over == Repeating(c + [p], taken, false) && repeats + [p] == Repeating(c + [p], taken, true)
    ensures p.plate !in taken + PlatesOf(c) ==>
      repeats == Repeating(c + [p], taken, true) && insert + (over + [p]) == Repeating(c + [p], taken, false)
    ensures p.plate !in taken + PlatesOf(c) && over == [] ==> insert + [p] + over == Repeating(c + [p], taken, false)
  {
    RepeatingAppend(c, p, taken, true);
    RepeatingAppend(c, p, taken, false);
    assert insert + (over + [p]) == insert + over + [p];
    assert over == [] ==> insert + [p] + over == insert + over + [p];
  }

  lemma JudgeByCandidates(valid: seq<Prepared>, row: nat, r: Record, v: View, s: Split)
    requires r.Valid? && PassesMatch(valid, v, s)
    ensures Judge(r, row, v, s) ==
      if row in v.imported then Resume
      else if r.plate in v.taken + PlatesOf(Select(valid, v.imported, false)) then Repeat
      else if |s.insert| < v.room then Insert
      else OverLimit
  {
    UsedPlates(valid, v, s);
  }

  lemma PassesAgreeStep(valid: seq<Prepared>, row: nat, r: Record, v: View, s: Split)
    requires r.Valid?
    requires s.over != [] ==> |s.insert| >= v.room
    requires PassesMatch(valid, v, s)
    ensures PassesMatch(valid + [Prepared(row, r.plate)], v, Extend(s, Judge(r, row, v, s), row, r))
  {
    var p, c := Prepared(row, r.plate), Select(valid, v.imported, false);
    JudgeByCandidates(valid, row, r, v, s);
    SelectAppend(valid, p, v.imported, true);
    SelectAppend(valid, p, v.imported, false);
    CandidateStep(c, p, v.taken, s.insert, s.over, s.repeats);
  }

  lemma {:induction false} PassesAgree(rows: seq<Record>, first: nat, v: View)
    ensures PassesMatch(ValidOf(rows, first), v, SplitOf(rows, first, v))
  {
    hide *;
    if rows == [] {
      NothingPassed(first, v);
    } else {
      var front, r := rows[..|rows| - 1], rows[|rows| - 1];
      assert rows == front + [r];
      PassesAgree(front, first, v);
      SplitCountsEveryRecord(front, first, v);
      ValidLast(front, r, first);
      SplitLast(front, r, first, v);
      PassesAgreeLast(ValidOf(front, first), first + |front|, r, v, SplitOf(front, first, v));
    }
  }

  lemma NothingPassed(first: nat, v: View)
    ensures PassesMatch(ValidOf([], first), v, SplitOf([], first, v))
  {
  }

  lemma ValidLast(front: seq<Record>, r: Record, first: nat)
    ensures ValidOf(front + [r], first) ==
      ValidOf(front, first) + if r.Valid? then [Prepared(first + |front|, r.plate)] else []
  {
    assert (front + [r])[..|front|] == front;
  }

  lemma SplitLast(front: seq<Record>, r: Record, first: nat, v: View)
    ensures !Judge(r, first + |front|, v, SplitOf(front, first, v)).Malformed? ==> r.Valid?
    ensures
      var s := SplitOf(front, first, v);
      SplitOf(front + [r], first, v) == Extend(s, Judge(r, first + |front|, v, s), first + |front|, r)
  {
    assert (front + [r])[..|front|] == front;
  }

  lemma PassesAgreeLast(valid: seq<Prepared>, row: nat, r: Record, v: View, s: Split)
    requires s.over != [] ==> |s.insert| >= v.room
    requires PassesMatch(valid, v, s)
    ensures PassesMatch(valid + (if r.Valid? then [Prepared(row, r.plate)] else []), v,
      Extend(s, Judge(r, row, v, s), row, r))
  {
    if r.Valid? {
      PassesAgreeStep(valid, row, r, v, s);
    } else {
      assert valid + [] == valid;
    }
  }

  lemma {:induction false} SelectSame(ps: seq<Prepared>, a: set<nat>, b: set<nat>, wanted: bool)
    requires forall p :: p in ps ==> (p.row in a <==> p.row in b)
    ensures Select(ps, a, wanted) == Select(ps, b, wanted)
  {
    if ps != [] {
      SelectSame(ps[..|ps| - 1], a, b, wanted);
    }
  }

  lemma ResumedPlatesLast(front: seq<Record>, r: Record, first: nat, imported: set<nat>)
    ensures ResumedPlates(front + [r], first, imported) ==
      ResumedPlates(front, first, imported) + if r.Valid? && first + |front| in imported then {r.plate} else {}
  {
    var rows := front + [r];
    forall p | p in ResumedPlates(front, first, imported) ensures p in ResumedPlates(rows, first, imported) {
      var k :| 0 <= k < |front| && front[k].Valid? && first + k in imported && front[k].plate == p;
      assert rows[k] == front[k];
    }
    assert rows[|front|] == r;
  }

  lemma {:induction false} ResumedPlatesAgree(rows: seq<Record>, first: nat, imported: set<nat>)
    ensures ResumedPlates(rows, first, imported) == PlatesOf(Select(ValidOf(rows, first), imported, true))
  {
    hide ResumedPlates, Select, PlatesOf, ValidOf;
    if rows == [] {
      NothingResumed(first, imported);
    } else {
      var front, r := rows[..|rows| - 1], rows[|rows| - 1];
      ResumedPlatesAgree(front, first, imported);
      assert rows == front + [r];
      ResumedPlatesLast(front, r, first, imported);
      ValidLast(front, r, first);
      var valid := ValidOf(front, first);
      if r.Valid? {
        SelectAppend(valid, Prepared(first + |front|, r.plate), imported, true);
        PlatesOfAppend(Select(valid, imported, true), Prepared(first + |front|, r.plate));
      } else {
        assert valid + [] == valid;
      }
    }
  }

  lemma NothingResumed(first: nat, imported: set<nat>)
    ensures ResumedPlates([], first, imported) == PlatesOf(Select(ValidOf([], first), imported, true)) == {}
  {
  }

  // Cutting the unique rows at the dealer's remaining room completes the split.
  lemma ListsAreTheSplit(u: Upload, rows: seq<Record>, first: nat, seen: set<Plate>, db: seq<Listing>,
      unique: seq<Prepared>, kept: nat)
    requires
      var valid := ValidOf(rows, first);
      var imported := ImportedRows(db, u.job);
      var held := seen + PlatesOf(Select(valid, imported, true)) + OpenPlates(db);
      unique == Repeating(Select(valid, imported, false), held, false)
    requires kept == if Room(u, db) < |unique| then Room(u, db) else |unique|
    ensures
      var valid := ValidOf(rows, first);
      var imported := ImportedRows(db, u.job);
      var taken := seen + PlatesOf(Select(valid, imported, true)) + OpenPlates(db);
      var s := BatchSplit(u, db, rows, first, seen);
      s == Split(unique[..kept], unique[kept..], Select(valid, imported, true),
        Repeating(Select(valid, imported, false), taken, true), s.invalid)
  {
    var v := ViewOf(u, rows, first, seen, db);
    ResumedPlatesAgree(rows, first, v.imported);
    PassesAgree(rows, first, v);
    SplitCountsEveryRecord(rows, first, v);
    var s := SplitOf(rows, first, v);
    assert unique == s.insert + s.over;
    assert unique[..kept] == s.insert && unique[kept..] == s.over;
  }

  // prepareInventoryBatch: every row goes to one of two lists, with its number in the file.
  method PrepareInventoryBatch(rows: seq<Record>, first: nat) returns (valid: seq<Prepared>, invalid: seq<nat>)
    ensures valid == ValidOf(rows, first)
    ensures forall v :: invalid == SplitOf(rows, first, v).invalid
    ensures |valid| + |invalid| == |rows|
  {
    valid, invalid := [], [];
    for i := 0 to |rows|
      invariant valid == ValidOf(rows[..i], first)
      invariant forall v :: invalid == SplitOf(rows[..i], first, v).invalid
      invariant |valid| + |invalid| == i
    {
      assert rows[..i + 1][..i] == rows[..i];
      match rows[i] {
        case Valid(plate) => valid := valid + [Prepared(first + i, plate)];
        case Invalid(_) => invalid := invalid + [first + i];
      }
    }
    assert rows[..|rows|] == rows;
  }

  // detectExactDuplicates: one lookup for the whole batch, then a pass that adds each new plate to
  // the set the attempt carries along.
  method DetectExactDuplicates(listings: Listings, rows: seq<Prepared>, seen: set<Plate>)
    returns (unique: seq<Prepared>, duplicates: seq<Prepared>, seenAfter: set<Plate>)
    ensures unique == Repeating(rows, seen + OpenPlates(listings.rows), false)
    ensures duplicates == Repeating(rows, seen + OpenPlates(listings.rows), true)
    ensures seenAfter == seen + PlatesOf(unique)
  {
    var keys := seq(|rows|, k requires 0 <= k < |rows| => rows[k].plate);
    var existing := listings.FindActivelyListed(keys);
    var taken := seen + OpenPlates(listings.rows);
    unique, duplicates, seenAfter := [], [], seen;
    for i := 0 to |rows|
      invariant unique == Repeating(rows[..i], taken, false)
      invariant duplicates == Repeating(rows[..i], taken, true)
      invariant seenAfter == seen + PlatesOf(unique)
    {
      var row := rows[i];
      assert rows[..i + 1] == rows[..i] + [row];
      RepeatingAppend(rows[..i], row, taken, true);
      RepeatingAppend(rows[..i], row, taken, false);
      var repeats := row.plate in seenAfter || row.plate in existing;
      assert repeats <==> row.plate in taken + PlatesOf(rows[..i]) by {
        KeptPlates(rows[..i], taken);
        assert keys[i] == row.plate;
      }
      if repeats {
        duplicates := duplicates + [row];
      } else {
        PlatesOfAppend(unique, row);
        seenAfter := seenAfter + {row.plate};
        unique := unique + [row];
      }
    }
    assert rows[..|rows|] == rows;
  }

  lemma Slices(file: seq<Record>, a: nat, i: nat)
    requires a <= i < |file|
    ensures file[a..i + 1] == file[a..i] + [file[i]] && file[i + 1..i + 1] == []
  {
  }

  /* ----- The stores an attempt writes ----- */

  class RejectedRecords {
    var byRow: map<nat, Reason>

    constructor ()
      ensures byRow == map[]
    {
      byRow := map[];
    }

    // insertRejectedRecords: unordered insert-once upserts; those outside `landed` never arrive.
    method Insert(records: seq<Rejection>, landed: set<nat>)
      modifies this
      ensures byRow == InsertOnce(old(byRow), records, landed)
    {
      var i := 0;
      while i < |records|
        invariant 0 <= i <= |records|
        invariant byRow == InsertOnce(old(byRow), records[..i], landed)
      {
        assert records[..i + 1][..i] == records[..i];
        if records[i].row in landed && records[i].row !in byRow {
          byRow := byRow[records[i].row := records[i].reason];
        }
        i := i + 1;
      }
      assert records[..|records|] == records;
    }
  }

  // The counters of the job document, and whether it reached a completed status.
  class JobCounters {
    var counts: Counts
    var finished: bool

    constructor ()
      ensures counts == NOTHING_PROCESSED && !finished
    {
      counts, finished := NOTHING_PROCESSED, false;
    }
  }

  // One attempt at an upload: its in-memory counters and seen plates, and where it will die.
  class ImportAttempt {
    const upload: Upload
    const listings: Listings
    const rejected: RejectedRecords
    const job: JobCounters
    var counts: Counts
    var seenKeys: set<Plate>
    var crash: Option<Crash>

    // Starts from the last checkpoint with no plates seen.
    constructor (upload: Upload, listings: Listings, rejected: RejectedRecords, job: JobCounters, crash: Option<Crash>)
      ensures this.upload == upload && this.listings == listings && this.rejected == rejected && this.job == job
      ensures counts == job.counts && seenKeys == {} && this.crash == crash
    {
      this.upload, this.listings, this.rejected, this.job := upload, listings, rejected, job;
      this.counts, this.seenKeys, this.crash := job.counts, {}, crash;
    }

    ghost function State(): Saved
      reads listings, rejected, job
    {
      Saved(listings.rows, rejected.byRow, job.counts, job.finished)
    }

    // processInventoryBatch, up to the point where it writes: every row gets its place.
    method Classify(rows: seq<Record>, first: nat) returns (s: Split, seen: set<Plate>)
      ensures s == BatchSplit(upload, listings.rows, rows, first, seenKeys)
      ensures seen == SeenAfter(seenKeys, s)
    {
      hide SplitOf, Select, Repeating, ValidOf, OpenCount, ImportedRows, OpenPlates;
      var valid, invalid := PrepareInventoryBatch(rows, first);
      var resumed, candidates := SplitImported(valid);
      var unique, duplicates;
      unique, duplicates, seen := DetectExactDuplicates(listings, candidates, seenKeys + PlatesOf(resumed));
      var open := listings.CountOpen(upload.dealer);
      var remaining := if open < upload.limit then upload.limit - open else 0;
      var kept := if remaining < |unique| then remaining else |unique|;
      s := Split(unique[..kept], unique[kept..], resumed, duplicates, invalid);
      ListsAreTheSplit(upload, rows, first, seenKeys, listings.rows, unique, kept);
      PlatesOfConcat(unique[..kept], unique[kept..]);
      assert unique[..kept] + unique[kept..] == unique;
    }

    // processInventoryBatch. `ok` is false when the attempt ends here.
    method ProcessInventoryBatch(rows: seq<Record>, processed: nat) returns (ok: bool)
      requires counts == job.counts && |rows| <= processed
      modifies this, listings, rejected, job
      ensures
        var s := BatchSplit(upload, old(listings.rows), rows, processed - |rows| + FIRST_ROW, old(seenKeys));
        var a := Batch(upload, old(State()), old(seenKeys), processed, s, old(crash));
        State() == a.st && ok == a.more && (ok ==> seenKeys == a.seen && crash == a.crash && counts == job.counts)
    {
      hide Batch, BatchSplit, SeenAfter;
      ghost var seen := seenKeys;
      var s;
      s, seenKeys := Classify(rows, processed - |rows| + FIRST_ROW);
      ok := Persist(s, processed, seen);
    }

    // The rows an earlier attempt imported, and the others.
    method SplitImported(valid: seq<Prepared>) returns (resumed: seq<Prepared>, others: seq<Prepared>)
      ensures resumed == Select(valid, ImportedRows(listings.rows, upload.job), true)
      ensures others == Select(valid, ImportedRows(listings.rows, upload.job), false)
    {
      var numbers := seq(|valid|, i requires 0 <= i < |valid| => valid[i].row);
      var found := listings.FindImported(upload.job, numbers);
      resumed, others := Select(valid, found, true), Select(valid, found, false);
      forall p | p in valid ensures p.row in found <==> p.row in ImportedRows(listings.rows, upload.job) {
        var i :| 0 <= i < |valid| && valid[i] == p;
        assert numbers[i] == p.row;
      }
      SelectSame(valid, found, ImportedRows(listings.rows, upload.job), true);
      SelectSame(valid, found, ImportedRows(listings.rows, upload.job), false);
    }

    // Writes the batch's rows and, when everything was written, its checkpoint.
    method Persist(s: Split, processed: nat, ghost seen: set<Plate>) returns (ok: bool)
      requires counts == job.counts
      modifies this`counts, this`crash, listings, rejected, job
      ensures
        var a := Batch(upload, old(State()), seen, processed, s, old(crash));
        State() == a.st && ok == a.more &&
          (ok ==> a.seen == SeenAfter(seen, s) && crash == a.crash && counts == job.counts)
    {
      hide InsertOrdered, InsertOnce, Rejections, RejectedRows, SeenAfter;
      var drafts := Drafts(upload, s.insert);
      match crash {
        case Some(k) =>
          if k.batch == 0 {
            var _ := listings.InsertMany(drafts, k.inserted);
            rejected.Insert(Rejections(s), k.landed);
            return false;
          }
          crash := Some(k.(batch := k.batch - 1));
        case None =>
      }
      var inserted := listings.InsertMany(drafts, |drafts|);
      rejected.Insert(Rejections(s), RejectedRows(s));
      if !inserted {
        return false;
      }
      counts := Counts(processed, counts.valid + |s.insert| + |s.resumed|, counts.rejected + |s.invalid| + |s.over|,
        counts.duplicate + |s.repeats|);
      job.counts := counts;
      return true;
    }

    // A batch the reading loop hands over, as one step of the attempt.
    method HandOver(rows: seq<Record>, processed: nat, ghost size: nat) returns (ok: bool)
      requires counts == job.counts && 0 < size && counts.processed < |upload.file|
      requires processed == BatchEnd(upload, counts.processed, size) && rows == upload.file[counts.processed..processed]
      modifies this, listings, rejected, job
      ensures ok ==> counts == job.counts && counts.processed == processed
      ensures Attempt(upload, old(State()), old(seenKeys), size, old(crash)) ==
        if ok then Attempt(upload, State(), seenKeys, size, crash) else State()
    {
      hide BatchSplit, Written;
      ok := ProcessInventoryBatch(rows, processed);
    }

    // The attempt's last step, when every record is checkpointed.
    method Complete(ghost size: nat)
      requires 0 < size && job.counts.processed == |upload.file|
      modifies job
      ensures Attempt(upload, old(State()), seenKeys, size, crash) == State()
    {
      if crash.None? {
        job.finished := true;
      }
    }

    // extractInventoryUpload, with the reading loop of extractCsvBatches: skips the records the
    // checkpoint covers, hands over full batches and a last partial one, then completes the job.
    method Run(size: nat)
      requires 0 < size && counts == job.counts && seenKeys == {} && job.counts.processed <= |upload.file|
      modifies this, listings, rejected, job
      ensures State() == Attempt(upload, old(State()), {}, size, old(crash))
    {
      hide Attempt;
      var skip := counts.processed;
      var batch, processed: nat := [], 0;
      ghost var goal := Attempt(upload, State(), {}, size, crash);
      for i := 0 to |upload.file|
        invariant counts == job.counts
        invariant i < skip ==> processed == i && batch == [] && counts.processed == skip
        invariant skip <= counts.processed &&
          (i >= skip ==> processed == counts.processed <= i && batch == upload.file[processed..i])
        invariant |batch| < size
        invariant goal == Attempt(upload, State(), seenKeys, size, crash)
      {
        if processed < skip {
          processed := processed + 1;
          Slices(upload.file, i, i);
          continue;
        }
        Slices(upload.file, processed, i);
        batch := batch + [upload.file[i]];
        if |batch| < size {
          continue;
        }
        processed := processed + |batch|;
        var ok := HandOver(batch, processed, size);
        if !ok { return; }
        Slices(upload.file, i, i);
        batch := [];
      }
      if batch != [] {
        processed := processed + |batch|;
        var ok := HandOver(batch, processed, size);
        if !ok { return; }
      }
      Complete(size);
    }
  }
}
