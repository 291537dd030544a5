/** The two halves of an import put together: attempts as the job protocol lets them run, each with its
    lookups, its single writes and its checkpoints, in any interleaving. No row is ever lost; and while no
    attempt starts before the others of its job are over, each row is in one store only and the counters
    are exact. */
module JobImport {
  import opened Options
  import opened ListingStore
  import opened Import
  import opened UploadJob
  import R = ImportRefinement
  import P = JobProtocol

  // Where an attempt is in its batch: what its lookups have found so far, then its writes. refused: an
  // index has ended the ordered insert.
  datatype Work =
    | Imported(size: nat, imported: set<nat>)
    | Taken(size: nat, imported: set<nat>, taken: set<Plate>)
    | Writing(size: nat, view: View, split: Split, inserted: nat, refused: bool)

  // seen: the plates each attempt has come across so far. work: the batches begun and not yet counted.
  datatype World = World(state: P.State, listings: seq<Listing>, rejected: map<nat, Reason>,
      seen: map<nat, set<Plate>>, work: map<nat, Work>)

  // Of a batch: its three lookups one after the other, each document of its ordered insert, each rejected
  // row, its checkpoint. Elsewhere: somebody else changes the stock.
  datatype Step =
    | Protocol(event: P.Event)
    | LookForImported(owner: nat, size: nat)
    | LookForTaken(owner: nat)
    | CountOpen(owner: nat)
    | InsertNext(owner: nat)
    | RejectOne(owner: nat, record: Rejection)
    | CheckpointBatch(owner: nat)
    | Elsewhere(listings: seq<Listing>)

  // The first record of the attempt's batch and the one behind its last.
  function From(w: World, o: nat): nat
    requires o in w.state.attempts
  {
    w.state.attempts[o].read
  }

  function To(c: P.Config, w: World, o: nat, size: nat): nat
    requires o in w.state.attempts
  {
    BatchEnd(c.upload, From(w, o), size)
  }

  function Rows(c: P.Config, w: World, o: nat, size: nat): seq<Record>
    requires o in w.state.attempts && From(w, o) <= |c.upload.file|
  {
    c.upload.file[From(w, o)..To(c, w, o, size)]
  }

  // A CSV attempt that still lives, with records left to read.
  predicate Reading(c: P.Config, w: World, o: nat) {
    o in w.state.attempts && w.state.attempts[o].stage.Csv? && From(w, o) < |c.upload.file| && o in w.seen
  }

  predicate AtWork(c: P.Config, w: World, o: nat) {
    o in w.work && Reading(c, w, o) && 0 < w.work[o].size
  }

  predicate AllWritten(w: World, b: Work)
    requires b.Writing?
  {
    b.inserted == |b.split.insert| && RejectedRows(b.split) <= w.rejected.Keys
  }

  predicate AtWrites(c: P.Config, w: World, o: nat) {
    AtWork(c, w, o) && w.work[o].Writing?
  }

  predicate AtInsert(c: P.Config, w: World, o: nat) {
    AtWrites(c, w, o) && !w.work[o].refused && w.work[o].inserted < |w.work[o].split.insert|
  }

  predicate AtCheckpoint(c: P.Config, w: World, o: nat) {
    AtWrites(c, w, o) && AllWritten(w, w.work[o])
  }

  predicate Possible(c: P.Config, w: World, x: Step) {
    match x
    case Protocol(e) => !e.BatchBy? && P.Enabled(c, w.state, e)
    case LookForImported(o, size) => Reading(c, w, o) && o !in w.work && 0 < size
    case LookForTaken(o) => AtWork(c, w, o) && w.work[o].Imported?
    case CountOpen(o) => AtWork(c, w, o) && w.work[o].Taken?
    case InsertNext(o) => AtInsert(c, w, o)
    case RejectOne(o, r) => AtWrites(c, w, o) && r in Rejections(w.work[o].split)
    case CheckpointBatch(o) => AtCheckpoint(c, w, o)
    case Elsewhere(_) => true
  }

  function Held(c: P.Config, w: World, o: nat, b: Work): set<Plate>
    requires AtWork(c, w, o) && b.Imported?
  {
    w.seen[o] + ResumedPlates(Rows(c, w, o, b.size), FIRST_ROW + From(w, o), b.imported) + OpenPlates(w.listings)
  }

  function NextDraft(c: P.Config, b: Work): Listing
    requires b.Writing? && b.inserted < |b.split.insert|
  {
    DraftOf(c.upload, b.split.insert[b.inserted].row, b.split.insert[b.inserted].plate)
  }

  // The work of the attempts that still live.
  function Kept(work: map<nat, Work>, attempts: map<nat, P.Attempt>): map<nat, Work> {
    map o | o in work && o in attempts :: work[o]
  }

  // A step of the job protocol, with the stores as they are.
  function Stepped(c: P.Config, w: World, e: P.Event): World
    requires P.Enabled(c, w.state, e)
  {
    var next := P.Apply(c, w.state, e);
    w.(state := next, seen := if e.Deliver? then w.seen[e.owner := {}] else w.seen, work := Kept(w.work, next.attempts))
  }

  function FoundImported(c: P.Config, w: World, o: nat, size: nat): World {
    w.(work := w.work[o := Imported(size, ImportedRows(w.listings, c.upload.job))])
  }

  function FoundTaken(c: P.Config, w: World, o: nat): World
    requires AtWork(c, w, o) && w.work[o].Imported?
  {
    w.(work := w.work[o := Taken(w.work[o].size, w.work[o].imported, Held(c, w, o, w.work[o]))])
  }

  function Decided(c: P.Config, w: World, o: nat): World
    requires AtWork(c, w, o) && w.work[o].Taken?
  {
    var b := w.work[o];
    var v := View(b.imported, b.taken, Room(c.upload, w.listings));
    w.(work := w.work[o := Writing(b.size, v, SplitOf(Rows(c, w, o, b.size), FIRST_ROW + From(w, o), v), 0, false)])
  }

  function Inserted(c: P.Config, w: World, o: nat): World
    requires AtInsert(c, w, o)
  {
    var b := w.work[o];
    if ClashesIn(w.listings, NextDraft(c, b)) then w.(work := w.work[o := b.(refused := true)])
    else w.(listings := w.listings + [NextDraft(c, b)], work := w.work[o := b.(inserted := b.inserted + 1)])
  }

  function RejectedOne(w: World, r: Rejection): World {
    w.(rejected := if r.row in w.rejected then w.rejected else w.rejected[r.row := r.reason])
  }

  function Counted(c: P.Config, w: World, o: nat): World
    requires AtCheckpoint(c, w, o)
  {
    var b := w.work[o];
    var next := Stepped(c, w, P.BatchBy(o, b.size, b.view));
    next.(seen := w.seen[o := SeenAfter(w.seen[o], b.split)], work := next.work - {o})
  }

  function After(c: P.Config, w: World, x: Step): World
    requires Possible(c, w, x)
  {
    match x
    case Protocol(e) => Stepped(c, w, e)
    case LookForImported(o, size) => FoundImported(c, w, o, size)
    case LookForTaken(o) => FoundTaken(c, w, o)
    case CountOpen(o) => Decided(c, w, o)
    case InsertNext(o) => Inserted(c, w, o)
    case RejectOne(_, r) => RejectedOne(w, r)
    case CheckpointBatch(o) => Counted(c, w, o)
    case Elsewhere(listings) => w.(listings := listings)
  }

  ghost predicate Run(c: P.Config, db: seq<Listing>, worlds: seq<World>, steps: seq<Step>) {
    && |worlds| == |steps| + 1
    && P.Initial(c, worlds[0].state) && worlds[0].listings == db && worlds[0].rejected == map[] &&
      worlds[0].work == map[]
    && forall k :: 0 <= k < |steps| ==>
      Possible(c, worlds[k], steps[k]) && worlds[k + 1] == After(c, worlds[k], steps[k])
  }

  /* ----- The job's part of a run ----- */

  predicate IsJobStep(x: Step) {
    x.Protocol? || x.CheckpointBatch?
  }

  function EventOf(c: P.Config, w: World, x: Step): P.Event
    requires Possible(c, w, x) && IsJobStep(x)
  {
    if x.Protocol? then x.event else P.BatchBy(x.owner, w.work[x.owner].size, w.work[x.owner].view)
  }

  lemma StateAfter(c: P.Config, w: World, x: Step)
    requires Possible(c, w, x)
    ensures IsJobStep(x) ==>
      P.Enabled(c, w.state, EventOf(c, w, x)) && After(c, w, x).state == P.Apply(c, w.state, EventOf(c, w, x))
    ensures !IsJobStep(x) ==> After(c, w, x).state == w.state
  {
    hide P.Apply;
  }

  // The events and states of the job itself in the first k steps.
  function JobEvents(c: P.Config, db: seq<Listing>, worlds: seq<World>, steps: seq<Step>, k: nat): seq<P.Event>
    requires Run(c, db, worlds, steps) && k < |worlds|
  {
    if k == 0 then []
    else JobEvents(c, db, worlds, steps, k - 1) + if IsJobStep(steps[k - 1])
      then [EventOf(c, worlds[k - 1], steps[k - 1])] else []
  }

  function JobStates(c: P.Config, db: seq<Listing>, worlds: seq<World>, steps: seq<Step>, k: nat): seq<P.State>
    requires Run(c, db, worlds, steps) && k < |worlds|
  {
    if k == 0 then [worlds[0].state]
    else JobStates(c, db, worlds, steps, k - 1) + if IsJobStep(steps[k - 1]) then [worlds[k].state] else []
  }

  // They are a run of the job protocol, so everything proved of those holds here.
  lemma {:induction false} RunsTheProtocol(c: P.Config, db: seq<Listing>, worlds: seq<World>, steps: seq<Step>, k: nat)
    requires Run(c, db, worlds, steps) && k < |worlds|
    ensures
      var states := JobStates(c, db, worlds, steps, k);
      P.Run(c, states, JobEvents(c, db, worlds, steps, k)) && states[|states| - 1] == worlds[k].state
  {
    hide P.Apply, P.Enabled, After, Possible, P.Initial;
    if k > 0 {
      RunsTheProtocol(c, db, worlds, steps, k - 1);
      StateAfter(c, worlds[k - 1], steps[k - 1]);
    }
  }

  ghost predicate JobOk(c: P.Config, s: P.State) {
    P.SlotOk(s.job) && P.CountsOk(c, s.job) && P.AttemptsOk(c, s) && P.OwnerOk(c, s)
  }

  lemma JobIsOk(c: P.Config, db: seq<Listing>, worlds: seq<World>, steps: seq<Step>, k: nat)
    requires P.Sensible(c) && Run(c, db, worlds, steps) && k < |worlds|
    ensures JobOk(c, worlds[k].state)
  {
    hide P.SlotOk, P.CountsOk, P.AttemptsOk, P.OwnerOk, P.Initial, P.Enabled, P.Apply, Run;
    RunsTheProtocol(c, db, worlds, steps, k);
    var states := JobStates(c, db, worlds, steps, k);
    P.RunKeepsInv(c, states, JobEvents(c, db, worlds, steps, k), |states| - 1);
  }

  // A step of the protocol leaves the attempts that go on as they are, but for a batch.
  lemma AttemptsStay(c: P.Config, s: P.State, e: P.Event)
    requires P.OwnerOk(c, s) && P.Enabled(c, s, e)
    ensures forall o :: o in P.Apply(c, s, e).attempts ==>
      o in s.attempts || (e.Deliver? && e.owner == o && o !in s.used)
    ensures forall o :: o in P.Apply(c, s, e).attempts && o in s.attempts && !(e.BatchBy? && e.owner == o) ==>
      P.Apply(c, s, e).attempts[o] == s.attempts[o]
  {
    hide P.JobAfter, P.NextCounts, P.LeftAfter, P.DecisionsAfter, P.RequeuesAfter;
  }

  /* ----- No row is lost, however attempts overlap ----- */

  // A row is somewhere: a listing or a rejected row.
  predicate Stored(c: P.Config, w: World, row: nat) {
    row in ImportedRows(w.listings, c.upload.job) || row in w.rejected
  }

  ghost predicate CoveredRows(c: P.Config, w: World) {
    forall row :: FIRST_ROW <= row < FIRST_ROW + w.state.job.counts.processed ==> Stored(c, w, row)
  }

  // What an attempt has in memory about its batch is true of the stores, if not the whole truth: the rows
  // it found imported and those it inserted are still there.
  predicate WorkTrue(c: P.Config, w: World, o: nat, b: Work)
    requires o in w.state.attempts
  {
    var stored := ImportedRows(w.listings, c.upload.job);
    match b
    case Imported(_, imported) => imported <= stored
    case Taken(_, imported, _) => imported <= stored
    case Writing(size, v, s, inserted, _) =>
      && From(w, o) <= |c.upload.file| && s == SplitOf(Rows(c, w, o, size), FIRST_ROW + From(w, o), v)
      && v.imported <= stored && inserted <= |s.insert|
      && forall i :: 0 <= i < inserted ==> s.insert[i].row in stored
  }

  ghost predicate WorkOk(c: P.Config, w: World) {
    forall o :: o in w.work ==> o in w.state.attempts && WorkTrue(c, w, o, w.work[o])
  }

  // Every row of a batch is on one of its lists.
  lemma {:induction false} EveryRowIsOnAList(rows: seq<Record>, first: nat, v: View, row: nat)
    requires first <= row < first + |rows|
    ensures
      var s := SplitOf(rows, first, v);
      row in RowsOf(s.insert) + RowsOf(s.resumed) + RejectedRows(s)
    decreases |rows|
  {
    hide RowsOf, RejectedRows, Extend;
    var n := |rows| - 1;
    var s := SplitOf(rows[..n], first, v);
    R.ExtendRows(s, Judge(rows[n], first + n, v, s), first + n, rows[n]);
    if row < first + n {
      EveryRowIsOnAList(rows[..n], first, v, row);
    }
  }

  lemma ResumedRowsImported(rows: seq<Record>, first: nat, v: View)
    ensures RowsOf(SplitOf(rows, first, v).resumed) <= v.imported
  {
    R.ResumedAreImported(rows, first, v);
  }

  // A batch whose writes are all done leaves each of its rows somewhere.
  lemma BatchIsStored(c: P.Config, w: World, o: nat, row: nat)
    requires AtWork(c, w, o) && w.work[o].Writing? && AllWritten(w, w.work[o]) && WorkTrue(c, w, o, w.work[o])
    requires FIRST_ROW + From(w, o) <= row < FIRST_ROW + To(c, w, o, w.work[o].size)
    ensures Stored(c, w, row)
  {
    var b := w.work[o];
    var rows, first := Rows(c, w, o, b.size), FIRST_ROW + From(w, o);
    EveryRowIsOnAList(rows, first, b.view, row);
    ResumedRowsImported(rows, first, b.view);
    hide RejectedRows, SplitOf, ImportedRows;
    if row in RowsOf(b.split.insert) {
      var q :| q in b.split.insert && q.row == row;
      var i :| 0 <= i < |b.split.insert| && b.split.insert[i] == q;
    }
  }

  lemma SteppedKeepsWork(c: P.Config, w: World, e: P.Event)
    requires P.OwnerOk(c, w.state) && P.Enabled(c, w.state, e) && WorkOk(c, w)
    ensures forall o :: o in Stepped(c, w, e).work && !(e.BatchBy? && e.owner == o) ==>
      o in Stepped(c, w, e).state.attempts && WorkTrue(c, Stepped(c, w, e), o, w.work[o])
  {
    hide P.Apply, P.Enabled, P.OwnerOk, ImportedRows, SplitOf;
    AttemptsStay(c, w.state, e);
  }

  // Only a batch changes the counters of a job, and then its owner's.
  lemma OthersKeepCounts(c: P.Config, s: P.State, e: P.Event)
    requires JobOk(c, s) && P.Enabled(c, s, e) && !e.BatchBy?
    ensures P.Apply(c, s, e).job.counts == s.job.counts
  {
    hide P.NextCounts, P.AttemptsAfter, P.LeftAfter, P.DecisionsAfter, P.RequeuesAfter;
  }

  lemma BatchCounts(c: P.Config, s: P.State, o: nat, size: nat, v: View)
    requires JobOk(c, s) && P.Enabled(c, s, P.BatchBy(o, size, v))
    ensures
      var a, after := s.attempts[o], P.Apply(c, s, P.BatchBy(o, size, v));
      if HeldBy(s.job, Csv, o)
      then
        && a.counts == s.job.counts && a.read == s.job.counts.processed
        && after.job.counts == Tally(a.counts, BatchEnd(c.upload, a.read, size),
             SplitOf(c.upload.file[a.read..BatchEnd(c.upload, a.read, size)], FIRST_ROW + a.read, v))
      else after.job == s.job && o !in after.attempts
  {
    hide P.LeftAfter, P.DecisionsAfter, P.RequeuesAfter, SplitOf;
  }

  lemma CheckpointKeepsRows(c: P.Config, w: World, o: nat)
    requires JobOk(c, w.state) && AtCheckpoint(c, w, o) && WorkOk(c, w) && CoveredRows(c, w)
    ensures CoveredRows(c, Counted(c, w, o)) && WorkOk(c, Counted(c, w, o))
  {
    var b := w.work[o];
    BatchCounts(c, w.state, o, b.size, b.view);
    CountedKeepsWork(c, w, o);
    hide P.Apply, P.Enabled, JobOk, RejectedRows, SplitOf, ImportedRows, WorkTrue, Stored;
    assert WorkTrue(c, w, o, b);
    SameStored(c, w, Counted(c, w, o));
    forall row | FIRST_ROW <= row < FIRST_ROW + Counted(c, w, o).state.job.counts.processed
      ensures Stored(c, Counted(c, w, o), row) {
      if row >= FIRST_ROW + w.state.job.counts.processed {
        BatchIsStored(c, w, o, row);
      }
      assert Stored(c, w, row);
    }
  }

  lemma SameStored(c: P.Config, w: World, after: World)
    requires after.listings == w.listings && after.rejected == w.rejected
    ensures forall row :: Stored(c, after, row) <==> Stored(c, w, row)
  {
  }

  lemma CountedKeepsWork(c: P.Config, w: World, o: nat)
    requires P.OwnerOk(c, w.state) && AtCheckpoint(c, w, o) && WorkOk(c, w)
    ensures WorkOk(c, Counted(c, w, o))
  {
    var stepped, after := Stepped(c, w, P.BatchBy(o, w.work[o].size, w.work[o].view)), Counted(c, w, o);
    SteppedKeepsWork(c, w, P.BatchBy(o, w.work[o].size, w.work[o].view));
    hide P.Apply, P.Enabled, P.OwnerOk, RejectedRows, SplitOf, ImportedRows, WorkTrue;
    forall other | other in after.work
      ensures other in after.state.attempts && WorkTrue(c, after, other, after.work[other]) {
      WorkStaysTrue(c, stepped, after, other, w.work[other]);
    }
  }

  lemma InsertKeepsRows(c: P.Config, w: World, o: nat)
    requires AtInsert(c, w, o) && WorkOk(c, w) && CoveredRows(c, w)
    ensures CoveredRows(c, Inserted(c, w, o)) && WorkOk(c, Inserted(c, w, o))
  {
    var after := Inserted(c, w, o);
    InsertedIsTrue(c, w, o);
    hide ImportedRows, SplitOf, ClashesIn, WorkTrue;
    MoreRows(c, w, after);
    forall other | other in after.work
      ensures other in after.state.attempts && WorkTrue(c, after, other, after.work[other]) {
      if other != o {
        WorkStaysTrue(c, w, after, other, w.work[other]);
      }
    }
  }

  lemma InsertedIsTrue(c: P.Config, w: World, o: nat)
    requires AtInsert(c, w, o) && WorkTrue(c, w, o, w.work[o])
    ensures
      var after := Inserted(c, w, o);
      ImportedRows(w.listings, c.upload.job) <= ImportedRows(after.listings, c.upload.job) &&
        WorkTrue(c, after, o, after.work[o])
  {
    R.ImportedAppend(w.listings, NextDraft(c, w.work[o]), c.upload.job);
    hide ImportedRows, SplitOf, ClashesIn;
  }

  lemma WorkStaysTrue(c: P.Config, w: World, after: World, o: nat, b: Work)
    requires o in w.state.attempts && after.state == w.state && WorkTrue(c, w, o, b)
    requires ImportedRows(w.listings, c.upload.job) <= ImportedRows(after.listings, c.upload.job)
    ensures WorkTrue(c, after, o, b)
  {
    hide ImportedRows, SplitOf;
  }

  // What a change elsewhere must not do: take a listing of this upload away.
  predicate KeepsImported(c: P.Config, w: World, x: Step) {
    x.Elsewhere? ==> ImportedRows(w.listings, c.upload.job) <= ImportedRows(x.listings, c.upload.job)
  }

  lemma StepKeepsRows(c: P.Config, w: World, x: Step)
    requires JobOk(c, w.state) && Possible(c, w, x) && KeepsImported(c, w, x) && WorkOk(c, w) && CoveredRows(c, w)
    ensures CoveredRows(c, After(c, w, x)) && WorkOk(c, After(c, w, x))
  {
    match x
    case Protocol(e) =>
      OthersKeepCounts(c, w.state, e);
      SteppedKeepsWork(c, w, e);
      MoreRows(c, w, Stepped(c, w, e));
    case InsertNext(o) => InsertKeepsRows(c, w, o);
    case CheckpointBatch(o) => CheckpointKeepsRows(c, w, o);
    case _ => QuietStepKeepsRows(c, w, x);
  }

  lemma MoreRows(c: P.Config, w: World, after: World)
    requires CoveredRows(c, w) && after.state.job.counts == w.state.job.counts && w.rejected.Keys <= after.rejected.Keys
    requires ImportedRows(w.listings, c.upload.job) <= ImportedRows(after.listings, c.upload.job)
    ensures CoveredRows(c, after)
  {
    forall row | FIRST_ROW <= row < FIRST_ROW + after.state.job.counts.processed ensures Stored(c, after, row) {
      assert Stored(c, w, row);
    }
  }

  // The lookups, a rejected row, a change elsewhere.
  lemma QuietStepKeepsRows(c: P.Config, w: World, x: Step)
    requires Possible(c, w, x) && KeepsImported(c, w, x) && WorkOk(c, w) && CoveredRows(c, w)
    requires !IsJobStep(x) && !x.InsertNext?
    ensures CoveredRows(c, After(c, w, x)) && WorkOk(c, After(c, w, x))
  {
    hide ImportedRows, SplitOf, RejectedRows;
    MoreRows(c, w, After(c, w, x));
  }

  // In every interleaving, with stale attempts that go on, attempts whose error has been handled and whose
  // writes still land, and others changing the stock: every row behind the checkpoint is a listing or a
  // rejected row, as long as no listing of the upload is deleted. A completed job has lost no row.
  lemma {:induction false} NoRowIsLost(c: P.Config, db: seq<Listing>, worlds: seq<World>, steps: seq<Step>, k: nat)
    requires P.Sensible(c) && Run(c, db, worlds, steps) && k < |worlds|
    requires forall n :: 0 <= n < k ==> KeepsImported(c, worlds[n], steps[n])
    ensures CoveredRows(c, worlds[k]) && WorkOk(c, worlds[k])
    ensures Done(worlds[k].state.job.csv.status) ==>
      forall row :: FIRST_ROW <= row < FIRST_ROW + |c.upload.file| ==> Stored(c, worlds[k], row)
  {
    hide After, Possible, P.Initial, WorkOk, CoveredRows, Stored, P.SlotOk, P.AttemptsOk, P.OwnerOk;
    JobIsOk(c, db, worlds, steps, k);
    if k == 0 {
      NothingYet(c, db, worlds[0]);
    } else {
      NoRowIsLost(c, db, worlds, steps, k - 1);
      JobIsOk(c, db, worlds, steps, k - 1);
      StepKeepsRows(c, worlds[k - 1], steps[k - 1]);
    }
    DoneMeansAll(c, worlds[k]);
  }

  lemma NothingYet(c: P.Config, db: seq<Listing>, w: World)
    requires P.Initial(c, w.state) && w.work == map[]
    ensures CoveredRows(c, w) && WorkOk(c, w)
  {
  }

  lemma DoneMeansAll(c: P.Config, w: World)
    requires P.CountsOk(c, w.state.job) && CoveredRows(c, w)
    ensures Done(w.state.job.csv.status) ==> forall row :: FIRST_ROW <= row < FIRST_ROW + |c.upload.file| ==>
      Stored(c, w, row)
  {
  }

  /* ----- Attempts that do not overlap ----- */

  // Nothing is claimed while an attempt of the job still lives, be it the holder, one that has been handed
  // back or failed, or one whose last writes are still on their way; and nobody else changes the stock.
  predicate Undisturbed(w: World, x: Step) {
    && !x.Elsewhere?
    && (x.Protocol? && x.event.Deliver? && Claimable(w.state.job, x.event.stage, w.state.now) ==>
      w.state.attempts == map[])
  }

  // One attempt lives at most, and what it has counted is what is stored.
  ghost predicate Alone(s: P.State) {
    && (forall a, b :: a in s.attempts && b in s.attempts ==> a == b)
    && forall o :: o in s.attempts && s.attempts[o].stage.Csv? ==> s.attempts[o].counts == s.job.counts
  }

  lemma StepKeepsAlone(c: P.Config, s: P.State, e: P.Event)
    requires JobOk(c, s) && Alone(s) && P.Enabled(c, s, e)
    requires e.Deliver? && Claimable(s.job, e.stage, s.now) ==> s.attempts == map[]
    ensures Alone(P.Apply(c, s, e))
  {
    hide P.NextCounts, P.LeftAfter, P.DecisionsAfter, P.RequeuesAfter, P.SlotOk, P.CountsOk;
  }

  function SavedOf(w: World): Saved {
    Saved(w.listings, w.rejected, w.state.job.counts, Done(w.state.job.csv.status))
  }

  // What the attempt's lookups have found is what the stores hold, and what it has written is all that was
  // added since: it looked when the reference importer had taken m0 records.
  ghost predicate WorkExact(c: P.Config, db: seq<Listing>, w: World, o: nat, m0: nat)
    requires AtWork(c, w, o)
  {
    var u, b := c.upload, w.work[o];
    match b
    case Imported(_, imported) => imported == ImportedRows(w.listings, u.job)
    case Taken(size, imported, taken) =>
      imported == ImportedRows(w.listings, u.job) && taken == Held(c, w, o, Imported(size, imported))
    case Writing(size, v, s, inserted, refused) =>
      && BatchFrom(u, db, m0, From(w, o), To(c, w, o, size), w.seen[o], v, s)
      && !refused && inserted <= |s.insert| && w.listings == Simple(u, db, m0) + Drafts(u, s.insert[..inserted])
  }

  // A batch decided on the stores as the reference importer leaves them after m0 records.
  ghost predicate BatchFrom(u: Upload, db: seq<Listing>, m0: nat, from: nat, to: nat, seen: set<Plate>, v: View,
      s: Split) {
    && from <= m0 <= |u.file| && from <= to <= |u.file|
    && v == ViewOf(u, u.file[from..to], FIRST_ROW + from, seen, Simple(u, db, m0))
    && s == R.Cut(u, from, to, v)
    && R.SeenAreBlocked(u, Simple(u, db, m0), seen)
  }

  ghost predicate SeenOk(c: P.Config, w: World) {
    forall o :: o in w.state.attempts ==> o in w.seen && R.SeenAreBlocked(c.upload, w.listings, w.seen[o])
  }

  ghost predicate AllExact(c: P.Config, db: seq<Listing>, w: World, m0: nat) {
    forall o :: o in w.work ==> AtWork(c, w, o) && WorkExact(c, db, w, o, m0)
  }

  ghost predicate Inv(c: P.Config, db: seq<Listing>, w: World, m: nat, m0: nat) {
    && Alone(w.state) && SeenOk(c, w)
    && R.Progress(c.upload, db, SavedOf(w), m)
    && AllExact(c, db, w, m0)
  }

  // The next insert of such a batch is what the reference importer takes next.
  lemma NextInsert(u: Upload, db: seq<Listing>, m0: nat, from: nat, to: nat, seen: set<Plate>, v: View, s: Split,
      k: nat) returns (i: nat)
    requires ImportedRows(db, u.job) == {} && BatchFrom(u, db, m0, from, to, seen, v, s) && k < |s.insert|
    ensures m0 <= i < |u.file| && Simple(u, db, i) == Simple(u, db, m0) + Drafts(u, s.insert[..k])
    ensures !ClashesIn(Simple(u, db, i), DraftOf(u, s.insert[k].row, s.insert[k].plate))
    ensures Simple(u, db, i + 1) == Simple(u, db, i) + [DraftOf(u, s.insert[k].row, s.insert[k].plate)]
    ensures Simple(u, db, i + 1) == Simple(u, db, m0) + Drafts(u, s.insert[..k + 1])
    ensures R.SeenAreBlocked(u, Simple(u, db, i + 1), seen)
  {
    hide Simple, ImportedRows, OpenPlates, ClashesIn, AcceptedAt, SplitOf, ViewOf, R.Cut, R.RightView, R.Blocked;
    R.ViewIsRight(u, db, m0, from, to, seen);
    i := R.PrefixIsSimple(u, db, m0, from, to, v, s.insert, k);
    R.NoClash(u, db, i);
    R.BlockedStays(u, db, m0, i + 1);
    R.SimpleStep(u, db, i);
    assert s.insert[..k + 1] == s.insert[..k] + [s.insert[k]];
    R.DraftsStep(u, Simple(u, db, m0), s.insert[..k], s.insert[k]);
    assert Drafts(u, [s.insert[k]]) == [DraftOf(u, s.insert[k].row, s.insert[k].plate)];
  }

  // What the batch rejects is what the reference importer refuses, and with all its inserts done the
  // reference importer is at its end or further.
  lemma WholeBatch(u: Upload, db: seq<Listing>, m0: nat, from: nat, to: nat, seen: set<Plate>, v: View,
      s: Split) returns (m: nat)
    requires ImportedRows(db, u.job) == {} && BatchFrom(u, db, m0, from, to, seen, v, s)
    ensures m0 <= m <= |u.file| && to <= m && Simple(u, db, m) == Simple(u, db, m0) + Drafts(u, s.insert)
    ensures RejectedRows(s) == R.Refused(u, db, from, to)
    ensures AcceptedCount(u, db, to) == AcceptedCount(u, db, from) + |s.insert| + |s.resumed|
    ensures |s.insert| + |s.over| + |s.resumed| + |s.repeats| + |s.invalid| == to - from
    ensures R.SeenAreBlocked(u, Simple(u, db, m), SeenAfter(seen, s))
  {
    R.ViewIsRight(u, db, m0, from, to, seen);
    m := R.Later(m0, to);
    R.BatchAgrees(u, db, m0, from, to, v);
    R.BatchTallies(u, db, m0, from, to, v);
    R.SeenStayBlocked(u, db, m0, from, to, v, seen);
    hide Simple, SplitOf, RejectedRows, R.SeenAreBlocked, R.UsedAreBlocked, R.RightView;
  }

  // Progress of the stores, one write at a time.
  lemma ListingsGoOn(u: Upload, db: seq<Listing>, st: Saved, m: nat, m': nat)
    requires R.Progress(u, db, st, m) && st.counts.processed <= m' <= |u.file|
    ensures R.Progress(u, db, st.(listings := Simple(u, db, m')), m')
  {
  }

  lemma RejectedGoOn(u: Upload, db: seq<Listing>, st: Saved, m: nat, from: nat, to: nat, rejected: map<nat, Reason>)
    requires R.Progress(u, db, st, m) && from <= to <= |u.file|
    requires st.rejected.Keys <= rejected.Keys <= st.rejected.Keys + R.Refused(u, db, from, to)
    ensures R.Progress(u, db, st.(rejected := rejected), m)
  {
    assert R.Refused(u, db, from, to) <= R.Refused(u, db, 0, |u.file|);
  }

  lemma CountsGoOn(u: Upload, db: seq<Listing>, st: Saved, m: nat, to: nat, s: Split)
    requires R.Progress(u, db, st, m) && !st.finished && st.counts.processed <= to <= m
    requires R.Refused(u, db, st.counts.processed, to) <= st.rejected.Keys
    requires AcceptedCount(u, db, to) == AcceptedCount(u, db, st.counts.processed) + |s.insert| + |s.resumed|
    requires |s.insert| + |s.over| + |s.resumed| + |s.repeats| + |s.invalid| == to - st.counts.processed
    ensures R.Progress(u, db, st.(counts := Tally(st.counts, to, s)), m)
  {
    assert R.Refused(u, db, 0, to) ==
      R.Refused(u, db, 0, st.counts.processed) + R.Refused(u, db, st.counts.processed, to);
  }

  lemma ProtocolKeeps(c: P.Config, db: seq<Listing>, w: World, m: nat, m0: nat, e: P.Event)
    requires JobOk(c, w.state) && Inv(c, db, w, m, m0) && Possible(c, w, Protocol(e)) && Undisturbed(w, Protocol(e))
    ensures Inv(c, db, Stepped(c, w, e), m, m0)
  {
    StepKeepsAlone(c, w.state, e);
    ExactAfter(c, db, w, m0, e);
    StaysInProgress(c, db, w, m, e);
    AttemptsStay(c, w.state, e);
    hide P.Apply, P.Enabled, JobOk, Alone, AllExact, R.Progress, R.Blocked, Simple;
  }

  lemma StaysInProgress(c: P.Config, db: seq<Listing>, w: World, m: nat, e: P.Event)
    requires JobOk(c, w.state) && R.Progress(c.upload, db, SavedOf(w), m) && Possible(c, w, Protocol(e))
    ensures R.Progress(c.upload, db, SavedOf(Stepped(c, w, e)), m)
  {
    OthersKeepCounts(c, w.state, e);
    P.StepKeepsSlot(c, w.state, e);
    P.StepKeepsCounts(c, w.state, e);
    hide P.Apply, P.Enabled, Simple, R.Refused, AcceptedCount;
  }

  lemma ExactAfter(c: P.Config, db: seq<Listing>, w: World, m0: nat, e: P.Event)
    requires P.OwnerOk(c, w.state) && P.Enabled(c, w.state, e) && AllExact(c, db, w, m0) && !e.BatchBy? &&
      w.state.attempts.Keys <= w.seen.Keys
    ensures AllExact(c, db, Stepped(c, w, e), m0)
  {
    AttemptsStay(c, w.state, e);
    var after := Stepped(c, w, e);
    hide P.Apply, P.Enabled;
    forall o | o in after.work ensures AtWork(c, after, o) && WorkExact(c, db, after, o, m0) {
      assert AtWork(c, w, o) && WorkExact(c, db, w, o, m0);
      assert o in w.state.attempts && after.state.attempts[o] == w.state.attempts[o] && after.seen[o] == w.seen[o];
      SameWork(c, db, w, after, o, m0);
    }
  }

  lemma SameWork(c: P.Config, db: seq<Listing>, w: World, after: World, o: nat, m0: nat)
    requires AtWork(c, w, o) && WorkExact(c, db, w, o, m0) && o in after.work && after.work[o] == w.work[o]
    requires o in after.state.attempts && after.state.attempts[o] == w.state.attempts[o] && o in after.seen &&
      after.seen[o] == w.seen[o]
    requires after.listings == w.listings
    ensures AtWork(c, after, o) && WorkExact(c, db, after, o, m0)
  {
    hide BatchFrom, OpenPlates, ResumedPlates, ImportedRows;
  }

  // The attempt at a batch: what it has read is what is stored.
  lemma WorkerReads(c: P.Config, w: World, o: nat)
    requires JobOk(c, w.state) && Alone(w.state) && AtWork(c, w, o)
    ensures w.state.attempts[o].counts == w.state.job.counts && From(w, o) == w.state.job.counts.processed
    ensures !Done(w.state.job.csv.status)
    ensures forall other :: other in w.state.attempts ==> other == o
  {
  }

  // The first two lookups, which find the stores as they are.
  lemma LookupKeeps(c: P.Config, db: seq<Listing>, w: World, m: nat, m0: nat, o: nat, b: Work)
    requires Inv(c, db, w, m, m0) && Reading(c, w, o)
    requires
      var after := w.(work := w.work[o := b]);
      !b.Writing? && AtWork(c, after, o) && WorkExact(c, db, after, o, m0)
    ensures Inv(c, db, w.(work := w.work[o := b]), m, m0)
  {
    assert o in w.state.attempts;
    hide R.Progress, R.SeenAreBlocked, Reading;
    ExactWithOne(c, db, w, m0, m0, o, b);
  }

  // With one attempt alive there is one batch at most.
  lemma ExactWithOne(c: P.Config, db: seq<Listing>, w: World, m0: nat, m1: nat, o: nat, b: Work)
    requires Alone(w.state) && o in w.state.attempts && AllExact(c, db, w, m0)
    requires
      var after := w.(work := w.work[o := b]);
      AtWork(c, after, o) && WorkExact(c, db, after, o, m1)
    ensures AllExact(c, db, w.(work := w.work[o := b]), m1)
  {
    forall other | other in w.work ensures other == o {
      assert AtWork(c, w, other);
    }
    hide WorkExact, AtWork;
  }

  lemma DecidedKeeps(c: P.Config, db: seq<Listing>, w: World, m: nat, m0: nat, o: nat)
    requires JobOk(c, w.state) && Inv(c, db, w, m, m0) && AtWork(c, w, o) && w.work[o].Taken?
    ensures Inv(c, db, Decided(c, w, o), m, m)
  {
    WorkerReads(c, w, o);
    hide R.SeenAreBlocked, JobOk;
    DecidedExact(c, db, w, m, m0, o);
    ExactWithOne(c, db, w, m0, m, o, Decided(c, w, o).work[o]);
    hide R.Progress, AllExact;
  }

  lemma DecidedExact(c: P.Config, db: seq<Listing>, w: World, m: nat, m0: nat, o: nat)
    requires AtWork(c, w, o) && w.work[o].Taken? && WorkExact(c, db, w, o, m0)
    requires From(w, o) <= m <= |c.upload.file| && w.listings == Simple(c.upload, db, m)
    requires R.SeenAreBlocked(c.upload, w.listings, w.seen[o])
    ensures AtWork(c, Decided(c, w, o), o) && WorkExact(c, db, Decided(c, w, o), o, m)
  {
    hide BatchFrom, R.SeenAreBlocked, OpenPlates, ResumedPlates, ImportedRows, SplitOf, Room, Drafts, Simple;
    var b, after := w.work[o], Decided(c, w, o);
    StartsBatch(c.upload, db, m, From(w, o), To(c, w, o, b.size), w.seen[o]);
    NoDrafts(c.upload, Simple(c.upload, db, m), after.work[o].split.insert);
  }

  lemma NoDrafts(u: Upload, now: seq<Listing>, ps: seq<Prepared>)
    ensures now == now + Drafts(u, ps[..0])
  {
    assert Drafts(u, ps[..0]) == [];
  }

  lemma StartsBatch(u: Upload, db: seq<Listing>, m: nat, from: nat, to: nat, seen: set<Plate>)
    requires from <= m <= |u.file| && from <= to <= |u.file| && R.SeenAreBlocked(u, Simple(u, db, m), seen)
    ensures
      var now, rows, first := Simple(u, db, m), u.file[from..to], FIRST_ROW + from;
      var v := View(ImportedRows(now, u.job),
        seen + ResumedPlates(rows, first, ImportedRows(now, u.job)) + OpenPlates(now), Room(u, now));
      BatchFrom(u, db, m, from, to, seen, v, SplitOf(rows, first, v))
  {
  }

  lemma InsertKeeps(c: P.Config, db: seq<Listing>, w: World, m: nat, m0: nat, o: nat) returns (m': nat)
    requires ImportedRows(db, c.upload.job) == {} && JobOk(c, w.state) && Inv(c, db, w, m, m0) && AtInsert(c, w, o)
    ensures Inv(c, db, Inserted(c, w, o), m', m0)
  {
    var u, b := c.upload, w.work[o];
    WorkerReads(c, w, o);
    assert WorkExact(c, db, w, o, m0);
    var i := NextInsert(u, db, m0, From(w, o), To(c, w, o, b.size), w.seen[o], b.view, b.split, b.inserted);
    m' := i + 1;
    assert From(w, o) <= m0;
    ListingsGoOn(u, db, SavedOf(w), m, m');
    InsertedExact(c, db, w, m0, o, i);
    hide BatchFrom, Simple, R.SeenAreBlocked, R.Progress, ClashesIn, JobOk, Drafts, AllExact, WorkExact;
    assert SavedOf(Inserted(c, w, o)) == SavedOf(w).(listings := Simple(u, db, m'));
  }

  lemma InsertedExact(c: P.Config, db: seq<Listing>, w: World, m0: nat, o: nat, i: nat)
    requires AtInsert(c, w, o) && Alone(w.state) && AllExact(c, db, w, m0) && i < |c.upload.file|
    requires
      var u, b := c.upload, w.work[o];
      && w.listings == Simple(u, db, i) && !ClashesIn(Simple(u, db, i), NextDraft(c, b))
      && Simple(u, db, i + 1) == Simple(u, db, i) + [NextDraft(c, b)]
      && Simple(u, db, i + 1) == Simple(u, db, m0) + Drafts(u, b.split.insert[..b.inserted + 1])
    ensures Inserted(c, w, o).listings == Simple(c.upload, db, i + 1)
    ensures AllExact(c, db, Inserted(c, w, o), m0)
  {
    var after := Inserted(c, w, o);
    assert WorkExact(c, db, w, o, m0);
    hide BatchFrom, Simple, ClashesIn, Drafts;
    assert AtWork(c, after, o) && WorkExact(c, db, after, o, m0);
    forall other | other in after.work ensures other == o {
      assert AtWork(c, w, other);
    }
  }

  lemma RejectKeeps(c: P.Config, db: seq<Listing>, w: World, m: nat, m0: nat, o: nat, r: Rejection)
    requires ImportedRows(db, c.upload.job) == {} && JobOk(c, w.state) && Inv(c, db, w, m, m0) && AtWrites(c, w, o) &&
      r in Rejections(w.work[o].split)
    ensures Inv(c, db, RejectedOne(w, r), m, m0)
  {
    hide BatchFrom, Simple, Drafts, R.Refused, AcceptedCount, RejectedRows, Rejections, R.SeenAreBlocked, JobOk, Alone,
      R.Progress;
    var u, b, after := c.upload, w.work[o], RejectedOne(w, r);
    assert WorkExact(c, db, w, o, m0);
    var m1 := WholeBatch(u, db, m0, From(w, o), To(c, w, o, b.size), w.seen[o], b.view, b.split);
    RejectedIsRefused(b.split, r);
    hide AllExact, WorkExact;
    ExactWithout(c, db, w, after, m0);
    RejectedGoOn(u, db, SavedOf(w), m, From(w, o), To(c, w, o, b.size), after.rejected);
  }

  lemma RejectedIsRefused(s: Split, r: Rejection)
    requires r in Rejections(s)
    ensures r.row in RejectedRows(s)
  {
    R.RejectionRows(s);
  }

  lemma ExactWithout(c: P.Config, db: seq<Listing>, w: World, after: World, m0: nat)
    requires AllExact(c, db, w, m0) && after == w.(rejected := after.rejected)
    ensures AllExact(c, db, after, m0)
  {
    forall o | o in after.work ensures AtWork(c, after, o) && WorkExact(c, db, after, o, m0) {
      assert AtWork(c, w, o) && WorkExact(c, db, w, o, m0);
      SameWork(c, db, w, after, o, m0);
    }
  }

  lemma CheckpointKeeps(c: P.Config, db: seq<Listing>, w: World, m: nat, m0: nat, o: nat) returns (m': nat)
    requires ImportedRows(db, c.upload.job) == {} && JobOk(c, w.state) && Inv(c, db, w, m, m0) &&
      AtCheckpoint(c, w, o) && WorkOk(c, w)
    ensures Inv(c, db, Counted(c, w, o), m', m0)
  {
    hide BatchFrom, Simple, Drafts, RejectedRows, R.Refused, AcceptedCount, SplitOf, SeenAfter, R.SeenAreBlocked,
      JobOk, R.Progress, Counted;
    var u, b, from, to := c.upload, w.work[o], From(w, o), To(c, w, o, w.work[o].size);
    WorkerReads(c, w, o);
    assert WorkExact(c, db, w, o, m0);
    m' := WholeBatch(u, db, m0, from, to, w.seen[o], b.view, b.split);
    assert b.split.insert[..b.inserted] == b.split.insert;
    CountedIs(c, w, o);
    hide WorkExact, AllExact, Alone;
    ListingsGoOn(u, db, SavedOf(w), m, m');
    if HeldBy(w.state.job, Csv, o) {
      CountsGoOn(u, db, SavedOf(w), m', to, b.split);
    }
    CountedInv(c, db, w, Counted(c, w, o), m', m0, o);
  }

  lemma CountedInv(c: P.Config, db: seq<Listing>, w: World, after: World, m: nat, m0: nat, o: nat)
    requires Alone(after.state) && after.work == map[] && forall other :: other in after.state.attempts ==> other == o
    requires o in after.seen && R.SeenAreBlocked(c.upload, after.listings, after.seen[o])
    requires R.Progress(c.upload, db, SavedOf(after), m)
    ensures Inv(c, db, after, m, m0)
  {
  }

  lemma CountedIs(c: P.Config, w: World, o: nat)
    requires JobOk(c, w.state) && Alone(w.state) && AtCheckpoint(c, w, o) && WorkOk(c, w)
    ensures
      var b, after := w.work[o], Counted(c, w, o);
      && Alone(after.state) && after.work == map[] && after.listings == w.listings && after.rejected == w.rejected
      && (forall other :: other in after.state.attempts ==> other == o)
      && after.seen == w.seen[o := SeenAfter(w.seen[o], b.split)]
      && SavedOf(after) ==
        if HeldBy(w.state.job, Csv, o)
        then SavedOf(w).(counts := Tally(w.state.job.counts, To(c, w, o, b.size), b.split)) else SavedOf(w)
  {
    var b := w.work[o];
    var e := P.BatchBy(o, b.size, b.view);
    WorkerReads(c, w, o);
    StepKeepsAlone(c, w.state, e);
    BatchCounts(c, w.state, o, b.size, b.view);
    AttemptsStay(c, w.state, e);
    StaysUndone(c, w.state, e);
    hide P.Apply, P.Enabled, JobOk, SplitOf, SeenAfter, RejectedRows, ImportedRows;
  }

  lemma StaysUndone(c: P.Config, s: P.State, e: P.Event)
    requires P.Enabled(c, s, e) && e.BatchBy?
    ensures P.Apply(c, s, e).job.csv == s.job.csv
  {
    hide P.NextCounts, P.AttemptsAfter, P.LeftAfter, P.DecisionsAfter, P.RequeuesAfter;
  }

  lemma StepKeepsInv(c: P.Config, db: seq<Listing>, w: World, m: nat, m0: nat, x: Step) returns (m': nat, m0': nat)
    requires ImportedRows(db, c.upload.job) == {} && JobOk(c, w.state) && WorkOk(c, w) && Inv(c, db, w, m, m0)
    requires Possible(c, w, x) && Undisturbed(w, x)
    ensures Inv(c, db, After(c, w, x), m', m0')
  {
    hide JobOk, WorkOk, Inv, Inserted, RejectedOne, Counted, Decided, Stepped;
    m', m0' := m, m0;
    match x
    case Protocol(e) => ProtocolKeeps(c, db, w, m, m0, e);
    case LookForImported(o, size) =>
      LookupExact(c, db, w, m, m0, o, Imported(size, ImportedRows(w.listings, c.upload.job)));
    case LookForTaken(o) => TakenExact(c, db, w, m, m0, o);
    case CountOpen(o) =>
      DecidedKeeps(c, db, w, m, m0, o);
      m0' := m;
    case InsertNext(o) => m' := InsertKeeps(c, db, w, m, m0, o);
    case RejectOne(o, r) => RejectKeeps(c, db, w, m, m0, o, r);
    case CheckpointBatch(o) => m' := CheckpointKeeps(c, db, w, m, m0, o);
  }

  lemma LookupExact(c: P.Config, db: seq<Listing>, w: World, m: nat, m0: nat, o: nat, b: Work)
    requires Inv(c, db, w, m, m0) && Reading(c, w, o) &&
      b == Imported(b.size, ImportedRows(w.listings, c.upload.job)) && 0 < b.size
    ensures Inv(c, db, w.(work := w.work[o := b]), m, m0)
  {
    hide Inv, ImportedRows;
    LookupKeeps(c, db, w, m, m0, o, b);
  }

  lemma TakenExact(c: P.Config, db: seq<Listing>, w: World, m: nat, m0: nat, o: nat)
    requires Inv(c, db, w, m, m0) && AtWork(c, w, o) && w.work[o].Imported?
    ensures Inv(c, db, FoundTaken(c, w, o), m, m0)
  {
    assert WorkExact(c, db, w, o, m0);
    hide Inv, ImportedRows, OpenPlates, ResumedPlates;
    LookupKeeps(c, db, w, m, m0, o, FoundTaken(c, w, o).work[o]);
  }

  lemma {:induction false} RunKeepsInv(c: P.Config, db: seq<Listing>, worlds: seq<World>, steps: seq<Step>,
      k: nat) returns (m: nat, m0: nat)
    requires P.Sensible(c) && ImportedRows(db, c.upload.job) == {} && Run(c, db, worlds, steps) && k < |worlds|
    requires forall n :: 0 <= n < k ==> Undisturbed(worlds[n], steps[n])
    ensures Inv(c, db, worlds[k], m, m0)
  {
    hide Inv, After, Possible, P.Initial, JobOk, WorkOk, CoveredRows;
    if k == 0 {
      m, m0 := 0, 0;
      StartsInv(c, db, worlds[0]);
    } else {
      m, m0 := RunKeepsInv(c, db, worlds, steps, k - 1);
      JobIsOk(c, db, worlds, steps, k - 1);
      NoRowIsLost(c, db, worlds, steps, k - 1);
      m, m0 := StepKeepsInv(c, db, worlds[k - 1], m, m0, steps[k - 1]);
    }
  }

  lemma StartsInv(c: P.Config, db: seq<Listing>, w: World)
    requires P.Initial(c, w.state) && w.listings == db && w.rejected == map[] && w.work == map[]
    ensures Inv(c, db, w, 0, 0)
  {
    R.FreshProgress(c.upload, db);
    assert SavedOf(w) == Fresh(db);
    hide R.Progress;
  }

  // While nothing is claimed before the attempts of the job are over: no two attempts live at once, every
  // row behind the checkpoint is in exactly one store, and a completed job has rejected exactly the rows
  // the reference importer refuses and counts as valid exactly those it accepts. (Its listings are the
  // reference importer's however attempts overlap, see ImportOverlap.)
  lemma SeparateAttemptsAreExact(c: P.Config, db: seq<Listing>, worlds: seq<World>, steps: seq<Step>, k: nat)
    requires P.Sensible(c) && ImportedRows(db, c.upload.job) == {} && Run(c, db, worlds, steps) && k < |worlds|
    requires forall n :: 0 <= n < k ==> Undisturbed(worlds[n], steps[n])
    ensures
      var w, u := worlds[k], c.upload;
      && (forall a, b :: a in w.state.attempts && b in w.state.attempts ==> a == b)
      && (forall row :: FIRST_ROW <= row < FIRST_ROW + w.state.job.counts.processed ==>
        (row in ImportedRows(w.listings, u.job) <==> row !in w.rejected))
      && ImportedRows(w.listings, u.job) !! w.rejected.Keys
      && (Done(w.state.job.csv.status) ==>
            && w.rejected.Keys == R.Refused(u, db, 0, |u.file|)
            && w.state.job.counts.valid == AcceptedCount(u, db, |u.file|))
  {
    var m, m0 := RunKeepsInv(c, db, worlds, steps, k);
    hide Run, AllExact, SeenOk, Simple, AcceptedCount, R.Refused, ImportedRows;
    R.OneStorePerRow(c.upload, db, SavedOf(worlds[k]), m);
  }

  /* ----- When the lease keeps attempts apart ----- */

  // A step of the world in time: the attempt that holds the lease, if it lives, has written it at most
  // JOB_LEASE_MS ago; and when a delivery claims, no reaper cycle is about to fail that stage, and no
  // attempt lives on that gave the job up by a step of its own. (The job's part is a run anyway, by
  // RunsTheProtocol.)
  ghost predicate InTime(c: P.Config, db: seq<Listing>, worlds: seq<World>, steps: seq<Step>, k: nat)
    requires Run(c, db, worlds, steps) && k < |steps|
  {
    var s, states, events := worlds[k].state, JobStates(c, db, worlds, steps, k), JobEvents(c, db, worlds, steps, k);
    && !steps[k].Elsewhere?
    && P.Run(c, states, events)
    && (forall o :: o in s.attempts && s.job.owner == Some(o) ==>
      s.now <= P.LastWrite(c, states, events, |events|, o) + JOB_LEASE_MS)
    && (steps[k].Protocol? && steps[k].event.Deliver? && Claimable(s.job, steps[k].event.stage, s.now) ==>
      && steps[k].event.stage !in s.decisions
      && forall o :: o in s.attempts ==> !P.GivesUp(states, events, 0, |events|, o))
  }

  // The attempt holds the lease of its stage, and no reaper cycle is about to fail that.
  predicate Holds(s: P.State, o: nat) {
    o in s.attempts && s.job.owner == Some(o) && s.attempts[o].stage !in s.decisions
  }

  // One that holds the lease and writes in time loses it to nobody, and nothing is claimed meanwhile.
  lemma HolderStep(c: P.Config, s: P.State, e: P.Event, o: nat)
    requires JobOk(c, s) && Holds(s, o) && P.Healthy(s) && P.Enabled(c, s, e)
    ensures e.Deliver? ==> !Claimable(s.job, e.stage, s.now)
    ensures o in P.Apply(c, s, e).attempts ==>
      Holds(P.Apply(c, s, e), o) || (P.Actor(e) == Some(o) && P.Apply(c, s, e).job.owner != Some(o))
  {
    P.KeptStep(c, s, e, o, s.attempts[o].stage);
    if o in P.Apply(c, s, e).attempts {
      KeepsStage(c, s, e, o);
    }
    hide P.Apply, P.Enabled;
  }

  lemma KeepsStage(c: P.Config, s: P.State, e: P.Event, o: nat)
    requires o in s.attempts && P.OwnerOk(c, s) && P.Enabled(c, s, e) && o in P.Apply(c, s, e).attempts
    ensures P.Apply(c, s, e).attempts[o].stage == s.attempts[o].stage
  {
    hide P.NextCounts, P.JobAfter, P.LeftAfter, P.DecisionsAfter, P.RequeuesAfter;
  }

  // A claim gives the new attempt the lease.
  lemma ClaimerHolds(c: P.Config, s: P.State, e: P.Event, o: nat)
    requires P.Enabled(c, s, e) && o !in s.attempts && o in P.Apply(c, s, e).attempts
    ensures e.Deliver? && e.owner == o && Claimable(s.job, e.stage, s.now)
    ensures e.stage !in s.decisions ==> Holds(P.Apply(c, s, e), o)
  {
    hide P.NextCounts, P.LeftAfter, P.RequeuesAfter;
  }

  ghost predicate HoldsOrGaveUp(c: P.Config, db: seq<Listing>, worlds: seq<World>, steps: seq<Step>, k: nat, o: nat)
    requires Run(c, db, worlds, steps) && k < |worlds|
  {
    var states, events := JobStates(c, db, worlds, steps, k), JobEvents(c, db, worlds, steps, k);
    Holds(worlds[k].state, o) || (|states| == |events| + 1 && P.GivesUp(states, events, 0, |events|, o))
  }

  // The holder's lease has not run out while it writes in time.
  lemma InTimeIsHealthy(c: P.Config, db: seq<Listing>, worlds: seq<World>, steps: seq<Step>, k: nat, o: nat)
    requires P.Sensible(c) && Run(c, db, worlds, steps) && k < |steps| && InTime(c, db, worlds, steps, k)
    requires Holds(worlds[k].state, o)
    ensures P.Healthy(worlds[k].state)
  {
    hide After, Possible, P.Apply, P.Enabled, P.Run, P.GivesUp, P.LastWrite;
    var states, events := JobStates(c, db, worlds, steps, k), JobEvents(c, db, worlds, steps, k);
    RunsTheProtocol(c, db, worlds, steps, k);
    RunLengths(c, states, events);
    P.LeaseEndsAfterLastWrite(c, states, events, |events|, o);
  }

  lemma RunLengths(c: P.Config, states: seq<P.State>, events: seq<P.Event>)
    requires P.Run(c, states, events)
    ensures |states| == |events| + 1
  {
  }

  lemma GaveUpStays(states: seq<P.State>, events: seq<P.Event>, s: P.State, e: P.Event, o: nat)
    requires |states| == |events| + 1 && P.GivesUp(states, events, 0, |events|, o)
    ensures P.GivesUp(states + [s], events + [e], 0, |events| + 1, o)
  {
    var n :| 0 <= n < |events| && P.Actor(events[n]) == Some(o) && states[n].job.owner == Some(o) &&
      states[n + 1].job.owner != Some(o);
    assert (events + [e])[n] == events[n] && (states + [s])[n] == states[n] && (states + [s])[n + 1] == states[n + 1];
  }

  lemma GivesUpNow(states: seq<P.State>, events: seq<P.Event>, s: P.State, e: P.Event, o: nat)
    requires |states| == |events| + 1 && P.Actor(e) == Some(o)
    requires states[|events|].job.owner == Some(o) && s.job.owner != Some(o)
    ensures P.GivesUp(states + [s], events + [e], 0, |events| + 1, o)
  {
    var all, n := states + [s], |events|;
    assert (events + [e])[n] == e && all[n] == states[n] && all[n + 1] == s;
  }

  lemma HoldsOrGivesUpAfter(c: P.Config, db: seq<Listing>, worlds: seq<World>, steps: seq<Step>, k: nat, o: nat)
    requires P.Sensible(c) && Run(c, db, worlds, steps) && k < |steps| && IsJobStep(steps[k])
    requires InTime(c, db, worlds, steps, k) && o in worlds[k + 1].state.attempts
    requires o in worlds[k].state.attempts ==> HoldsOrGaveUp(c, db, worlds, steps, k, o)
    ensures HoldsOrGaveUp(c, db, worlds, steps, k + 1, o)
  {
    hide After, Possible, P.Apply, P.Enabled, Holds, P.GivesUp, P.Run, P.LastWrite, JobOk, P.Healthy;
    var s, e := worlds[k].state, EventOf(c, worlds[k], steps[k]);
    var states, events := JobStates(c, db, worlds, steps, k), JobEvents(c, db, worlds, steps, k);
    StateAfter(c, worlds[k], steps[k]);
    JobIsOk(c, db, worlds, steps, k);
    RunsTheProtocol(c, db, worlds, steps, k);
    RunLengths(c, states, events);
    if o !in s.attempts {
      ClaimerHolds(c, s, e, o);
    } else if Holds(s, o) {
      InTimeIsHealthy(c, db, worlds, steps, k, o);
      HolderStep(c, s, e, o);
      if !Holds(worlds[k + 1].state, o) {
        OwnerOfHolder(s, o);
        GivesUpNow(states, events, worlds[k + 1].state, e, o);
      }
    } else {
      GaveUpStays(states, events, worlds[k + 1].state, e, o);
    }
  }

  lemma OwnerOfHolder(s: P.State, o: nat)
    requires Holds(s, o)
    ensures s.job.owner == Some(o)
  {
  }

  lemma OtherStepKeepsHold(c: P.Config, db: seq<Listing>, worlds: seq<World>, steps: seq<Step>, k: nat, o: nat)
    requires Run(c, db, worlds, steps) && k < |steps| && !IsJobStep(steps[k]) && o in worlds[k + 1].state.attempts
    requires o in worlds[k].state.attempts ==> HoldsOrGaveUp(c, db, worlds, steps, k, o)
    ensures HoldsOrGaveUp(c, db, worlds, steps, k + 1, o)
  {
    hide After, Possible, Holds, P.GivesUp, P.Initial;
    StateAfter(c, worlds[k], steps[k]);
    assert JobStates(c, db, worlds, steps, k + 1) == JobStates(c, db, worlds, steps, k);
    assert JobEvents(c, db, worlds, steps, k + 1) == JobEvents(c, db, worlds, steps, k);
  }

  // In a run in time an attempt that still lives holds the lease or has given it up itself.
  lemma {:induction false} LivingHoldOrGaveUp(c: P.Config, db: seq<Listing>, worlds: seq<World>, steps: seq<Step>,
      k: nat, o: nat)
    requires P.Sensible(c) && Run(c, db, worlds, steps) && k < |worlds| && o in worlds[k].state.attempts
    requires forall n :: 0 <= n < k ==> InTime(c, db, worlds, steps, n)
    ensures HoldsOrGaveUp(c, db, worlds, steps, k, o)
  {
    hide After, Possible, InTime, HoldsOrGaveUp;
    if k > 0 {
      hide P.Initial;
      if o in worlds[k - 1].state.attempts {
        LivingHoldOrGaveUp(c, db, worlds, steps, k - 1, o);
      }
      if IsJobStep(steps[k - 1]) {
        HoldsOrGivesUpAfter(c, db, worlds, steps, k - 1, o);
      } else {
        OtherStepKeepsHold(c, db, worlds, steps, k - 1, o);
      }
    }
  }

  lemma InTimeIsUndisturbed(c: P.Config, db: seq<Listing>, worlds: seq<World>, steps: seq<Step>, k: nat)
    requires P.Sensible(c) && Run(c, db, worlds, steps) && k < |steps|
    requires forall n :: 0 <= n <= k ==> InTime(c, db, worlds, steps, n)
    ensures Undisturbed(worlds[k], steps[k])
  {
    var s, x := worlds[k].state, steps[k];
    JobIsOk(c, db, worlds, steps, k);
    assert InTime(c, db, worlds, steps, k);
    if x.Protocol? && x.event.Deliver? && Claimable(s.job, x.event.stage, s.now) {
      if o :| o in s.attempts {
        LivingHoldOrGaveUp(c, db, worlds, steps, k, o);
        InTimeIsHealthy(c, db, worlds, steps, k, o);
        hide After, P.Apply, P.GivesUp, P.Run, Holds, JobOk, P.Healthy, InTime;
        HolderStep(c, s, x.event, o);
      }
    }
  }

  // So it is enough that holders write in time, that nothing is claimed against a pending decision of a
  // reaper, and that attempts that gave the job up are over before the next claim.
  lemma InTimeJobIsExact(c: P.Config, db: seq<Listing>, worlds: seq<World>, steps: seq<Step>)
    requires P.Sensible(c) && ImportedRows(db, c.upload.job) == {} && Run(c, db, worlds, steps)
    requires forall n :: 0 <= n < |steps| ==> InTime(c, db, worlds, steps, n)
    ensures
      var w, u := worlds[|steps|], c.upload;
      Done(w.state.job.csv.status) ==>
        && w.rejected.Keys == R.Refused(u, db, 0, |u.file|)
        && w.state.job.counts.valid == AcceptedCount(u, db, |u.file|)
  {
    assert |worlds| == |steps| + 1;
    hide Run, Undisturbed, InTime;
    forall n | 0 <= n < |steps| ensures Undisturbed(worlds[n], steps[n]) {
      InTimeIsUndisturbed(c, db, worlds, steps, n);
    }
    SeparateAttemptsAreExact(c, db, worlds, steps, |steps|);
  }
}
