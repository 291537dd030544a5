/** The CSV import as values: a reference importer that takes one row at a time and never
    crashes, what one batch of the real importer does, and what an attempt leaves behind when it
    dies. The real importer is shown to leave exactly the reference importer's listings. */
module Import {
  import opened Options
  import opened ListingStore

  // A CSV record as validation and text cleaning judge it.
  datatype Record = Valid(plate: Plate) | Invalid(errors: seq<string>)

  datatype Upload = Upload(job: nat, dealer: nat, limit: nat, file: seq<Record>)

  datatype Reason = Validation | Duplicate

  datatype Rejection = Rejection(row: nat, reason: Reason)

  datatype Counts = Counts(processed: nat, valid: nat, rejected: nat, duplicate: nat)

  const NOTHING_PROCESSED := Counts(0, 0, 0, 0)

  // Row 1 of a CSV file is its header, so record 0 is row 2.
  const FIRST_ROW := 2

  function DraftOf(u: Upload, row: nat, plate: Plate): Listing {
    Listing(u.dealer, Some(Source(u.job, row)), plate, Draft, None)
  }

  /* ----- The reference importer ----- */

  predicate Accepts(u: Upload, db: seq<Listing>, r: Record) {
    r.Valid? && r.plate !in OpenPlates(db) && OpenCount(db, u.dealer) < u.limit
  }

  // The listings after importing the first n records one at a time.
  function Simple(u: Upload, db: seq<Listing>, n: nat): seq<Listing>
    requires n <= |u.file|
  {
    if n == 0 then db
    else
      var before := Simple(u, db, n - 1);
      var r := u.file[n - 1];
      if Accepts(u, before, r) then before + [DraftOf(u, FIRST_ROW + n - 1, r.plate)] else before
  }

  predicate AcceptedAt(u: Upload, db: seq<Listing>, i: nat)
    requires i < |u.file|
  {
    Accepts(u, Simple(u, db, i), u.file[i])
  }

  function AcceptedCount(u: Upload, db: seq<Listing>, n: nat): nat
    requires n <= |u.file|
  {
    if n == 0 then 0 else AcceptedCount(u, db, n - 1) + if AcceptedAt(u, db, n - 1) then 1 else 0
  }

  /* ----- One batch, one record at a time ----- */

  // A valid row with its number in the file.
  datatype Prepared = Prepared(row: nat, plate: Plate)

  function PlatesOf(ps: seq<Prepared>): set<Plate> {
    set p | p in ps :: p.plate
  }

  function RowsOf(ps: seq<Prepared>): set<nat> {
    set p | p in ps :: p.row
  }

  // What a batch decides: the rows to insert, those past the dealer's limit, those an earlier
  // attempt imported, those whose plate is taken, and those that fail validation.
  datatype Split = Split(insert: seq<Prepared>, over: seq<Prepared>, resumed: seq<Prepared>, repeats: seq<Prepared>,
      invalid: seq<nat>)

  const EMPTY_SPLIT := Split([], [], [], [], [])

  // What the batch looks up before deciding: the rows already imported, the plates no row may
  // use, and the room left for this dealer.
  datatype View = View(imported: set<nat>, taken: set<Plate>, room: nat)

  datatype Verdict = Malformed | Resume | Repeat | Insert | OverLimit

  function Judge(r: Record, row: nat, v: View, s: Split): Verdict {
    if r.Invalid? then Malformed
    else if row in v.imported then Resume
    else if r.plate in v.taken + PlatesOf(s.insert) + PlatesOf(s.over) + PlatesOf(s.repeats) then Repeat
    else if |s.insert| < v.room then Insert
    else OverLimit
  }

  function Extend(s: Split, v: Verdict, row: nat, r: Record): Split
    requires !v.Malformed? ==> r.Valid?
  {
    match v
    case Malformed => s.(invalid := s.invalid + [row])
    case Resume => s.(resumed := s.resumed + [Prepared(row, r.plate)])
    case Repeat => s.(repeats := s.repeats + [Prepared(row, r.plate)])
    case Insert => s.(insert := s.insert + [Prepared(row, r.plate)])
    case OverLimit => s.(over := s.over + [Prepared(row, r.plate)])
  }

  function SplitOf(rows: seq<Record>, first: nat, v: View): Split {
    if rows == [] then EMPTY_SPLIT
    else
      var n := |rows| - 1;
      var s := SplitOf(rows[..n], first, v);
      Extend(s, Judge(rows[n], first + n, v, s), first + n, rows[n])
  }

  // Plates of the rows of this batch that an earlier attempt imported.
  function ResumedPlates(rows: seq<Record>, first: nat, imported: set<nat>): set<Plate> {
    set k | 0 <= k < |rows| && rows[k].Valid? && first + k in imported :: rows[k].plate
  }

  function Room(u: Upload, db: seq<Listing>): nat {
    if OpenCount(db, u.dealer) < u.limit then u.limit - OpenCount(db, u.dealer) else 0
  }

  function ViewOf(u: Upload, rows: seq<Record>, first: nat, seen: set<Plate>, db: seq<Listing>): View {
    var imported := ImportedRows(db, u.job);
    View(imported, seen + ResumedPlates(rows, first, imported) + OpenPlates(db), Room(u, db))
  }

  function Tally(c: Counts, processed: nat, s: Split): Counts {
    Counts(processed, c.valid + |s.insert| + |s.resumed|, c.rejected + |s.invalid| + |s.over|,
      c.duplicate + |s.repeats|)
  }

  function SeenAfter(seen: set<Plate>, s: Split): set<Plate> {
    seen + PlatesOf(s.resumed) + PlatesOf(s.insert) + PlatesOf(s.over)
  }

  function RejectedRows(s: Split): set<nat> {
    RowsOf(s.over) + (set r | r in s.invalid) + RowsOf(s.repeats)
  }

  function Drafts(u: Upload, ps: seq<Prepared>): seq<Listing> {
    seq(|ps|, i requires 0 <= i < |ps| => DraftOf(u, ps[i].row, ps[i].plate))
  }

  function Marked(ps: seq<Prepared>, reason: Reason): seq<Rejection> {
    seq(|ps|, i requires 0 <= i < |ps| => Rejection(ps[i].row, reason))
  }

  function Rejections(s: Split): seq<Rejection> {
    Marked(s.over, Validation)
    + seq(|s.invalid|, i requires 0 <= i < |s.invalid| => Rejection(s.invalid[i], Validation))
    + Marked(s.repeats, Duplicate)
  }

  // Insert-once upserts; only those in `landed` reach the store before the process dies.
  function InsertOnce(store: map<nat, Reason>, records: seq<Rejection>, landed: set<nat>): map<nat, Reason> {
    if records == [] then store
    else
      var n := |records| - 1;
      var before := InsertOnce(store, records[..n], landed);
      if records[n].row in landed && records[n].row !in before then before[records[n].row := records[n].reason]
        else before
  }

  // Every record of a batch is counted once: what the checkpoint adds to the counters is the
  // number of records it covers.
  lemma {:induction false} SplitCountsEveryRecord(rows: seq<Record>, first: nat, v: View)
    ensures
      var s := SplitOf(rows, first, v);
      && |s.insert| + |s.over| + |s.resumed| + |s.repeats| + |s.invalid| == |rows|
      && |s.insert| <= v.room
      && (s.over != [] ==> |s.insert| == v.room)
  {
    if rows != [] {
      SplitCountsEveryRecord(rows[..|rows| - 1], first, v);
    }
  }

  /* ----- Attempts ----- */

  // What the database keeps between attempts.
  datatype Saved = Saved(listings: seq<Listing>, rejected: map<nat, Reason>, counts: Counts, finished: bool)

  // An attempt that dies: in its batch number `batch` (counting from 0), after `inserted` of that
  // batch's inserts and after the rejected rows in `landed`; before completing when the attempt
  // has fewer batches.
  datatype Crash = Crash(batch: nat, inserted: nat, landed: set<nat>)

  datatype Plan = Plan(size: nat, crash: Option<Crash>)

  function BatchEnd(u: Upload, c: nat, size: nat): nat {
    if c + size < |u.file| then c + size else |u.file|
  }

  function BatchSplit(u: Upload, db: seq<Listing>, rows: seq<Record>, first: nat, seen: set<Plate>): Split {
    SplitOf(rows, first, ViewOf(u, rows, first, seen, db))
  }

  function Written(u: Upload, st: Saved, s: Split, inserted: nat, landed: set<nat>): Saved {
    st.(listings := InsertOrdered(st.listings, Drafts(u, s.insert), inserted),
      rejected := InsertOnce(st.rejected, Rejections(s), landed))
  }

  // Where an attempt stands after its next step.
  datatype Standing = Standing(st: Saved, seen: set<Plate>, crash: Option<Crash>, more: bool)

  // One batch, up to record e, that runs to its checkpoint. An index that refuses an insert ends
  // the attempt before the checkpoint, like a crash does.
  function Commit(u: Upload, st: Saved, seen: set<Plate>, e: nat, s: Split, crash: Option<Crash>): Standing {
    var w := Written(u, st, s, |s.insert|, RejectedRows(s));
    if |w.listings| < |st.listings| + |s.insert| then Standing(w, seen, crash, false)
    else Standing(w.(counts := Tally(st.counts, e, s)), SeenAfter(seen, s), crash, true)
  }

  function Batch(u: Upload, st: Saved, seen: set<Plate>, e: nat, s: Split, crash: Option<Crash>): Standing {
    match crash
    case None => Commit(u, st, seen, e, s, None)
    case Some(k) =>
      if k.batch == 0 then Standing(Written(u, st, s, k.inserted, k.landed), seen, crash, false)
      else Commit(u, st, seen, e, s, Some(k.(batch := k.batch - 1)))
  }

  function Step(u: Upload, st: Saved, seen: set<Plate>, size: nat, crash: Option<Crash>): Standing
    requires 0 < size && st.counts.processed <= |u.file|
  {
    var c := st.counts.processed;
    if c == |u.file| then Standing(if crash.None? then st.(finished := true) else st, seen, crash, false)
    else
      var e := BatchEnd(u, c, size);
      Batch(u, st, seen, e, BatchSplit(u, st.listings, u.file[c..e], FIRST_ROW + c, seen), crash)
  }

  // One attempt: batches from the last checkpoint on.
  function Attempt(u: Upload, st: Saved, seen: set<Plate>, size: nat, crash: Option<Crash>): Saved
    requires 0 < size && st.counts.processed <= |u.file|
    decreases |u.file| - st.counts.processed
  {
    var a := Step(u, st, seen, size, crash);
    if a.more then Attempt(u, a.st, a.seen, size, a.crash) else a.st
  }

  // Attempts one after the other; none is made once the job is complete.
  function Attempts(u: Upload, st: Saved, plans: seq<Plan>): Saved
    requires forall p :: p in plans ==> 0 < p.size
    requires st.counts.processed <= |u.file|
    decreases |plans|
  {
    if plans == [] || st.finished then st
    else
      var next := Attempt(u, st, {}, plans[0].size, plans[0].crash);
      if next.counts.processed <= |u.file| then Attempts(u, next, plans[1..]) else next
  }

  function Fresh(db: seq<Listing>): Saved {
    Saved(db, map[], NOTHING_PROCESSED, false)
  }
}
