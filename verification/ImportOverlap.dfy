/** Attempts that overlap without restriction: stale ones that go on, ones that were handed back or have
    failed, with lookups as old as they like. Whatever they do, the listings are the reference importer's,
    and a completed job has all of them. */
module ImportOverlap {
  import opened Options
  import opened ListingStore
  import opened Import
  import opened UploadJob
  import opened JobImport
  import R = ImportRefinement
  import P = JobProtocol

  /* ----- One batch decided on old lookups ----- */

  // Two views of the same batch: the second misses none of the rows that are imported, and those the
  // first misses have their plates held; the first finds no more room.
  predicate OlderView(rows: seq<Record>, first: nat, stale: View, exact: View) {
    && stale.taken == exact.taken && stale.imported <= exact.imported && stale.room <= exact.room
    && forall k :: 0 <= k < |rows| && rows[k].Valid? && first + k in exact.imported && first + k !in stale.imported ==>
      rows[k].plate in stale.taken
  }

  function Used(s: Split): set<Plate> {
    PlatesOf(s.insert) + PlatesOf(s.over) + PlatesOf(s.repeats)
  }

  // The inserts of the first are those of the second, unless the dealer's limit cuts them off, and it takes
  // no more rows for imported.
  predicate InsertsCutOff(stale: View, exact: View, s: Split, t: Split) {
    && stale.taken + Used(s) == exact.taken + Used(t)
    && s.insert <= t.insert && |s.insert| <= stale.room
    && (s.insert == t.insert || |s.insert| == stale.room)
    && |s.resumed| <= |t.resumed|
  }

  lemma ExtendUsed(s: Split, v: Verdict, row: nat, r: Record)
    requires r.Valid?
    ensures Used(Extend(s, v, row, r)) ==
      Used(s) + if v.Malformed? || v.Resume? then {} else {r.plate}
    ensures Extend(s, v, row, r).insert == if v.Insert? then s.insert + [Prepared(row, r.plate)] else s.insert
    ensures |Extend(s, v, row, r).resumed| == |s.resumed| + if v.Resume? then 1 else 0
  {
    R.RowsOfAppend(s.repeats, Prepared(row, r.plate));
    R.RowsOfAppend(s.insert, Prepared(row, r.plate));
    R.RowsOfAppend(s.over, Prepared(row, r.plate));
  }

  lemma CutOffStep(r: Record, row: nat, stale: View, exact: View, s: Split, t: Split)
    requires InsertsCutOff(stale, exact, s, t)
    requires stale.taken == exact.taken && stale.imported <= exact.imported && stale.room <= exact.room
    requires r.Valid? && row in exact.imported && row !in stale.imported ==> r.plate in stale.taken
    ensures InsertsCutOff(stale, exact, Extend(s, Judge(r, row, stale, s), row, r),
      Extend(t, Judge(r, row, exact, t), row, r))
  {
    if r.Valid? {
      ExtendUsed(s, Judge(r, row, stale, s), row, r);
      ExtendUsed(t, Judge(r, row, exact, t), row, r);
      assert stale.taken + PlatesOf(s.insert) + PlatesOf(s.over) + PlatesOf(s.repeats) == stale.taken + Used(s);
      assert exact.taken + PlatesOf(t.insert) + PlatesOf(t.over) + PlatesOf(t.repeats) == exact.taken + Used(t);
      hide PlatesOf, Extend;
    }
  }

  lemma SplitLast(rows: seq<Record>, first: nat, v: View)
    requires rows != []
    ensures
      var n := |rows| - 1;
      var s := SplitOf(rows[..n], first, v);
      && (!Judge(rows[n], first + n, v, s).Malformed? ==> rows[n].Valid?)
      && SplitOf(rows, first, v) == Extend(s, Judge(rows[n], first + n, v, s), first + n, rows[n])
  {
  }

  lemma NothingCutOff(first: nat, stale: View, exact: View)
    requires stale.taken == exact.taken
    ensures InsertsCutOff(stale, exact, SplitOf([], first, stale), SplitOf([], first, exact))
  {
    assert Used(EMPTY_SPLIT) == {};
  }

  lemma OlderStep(rows: seq<Record>, first: nat, stale: View, exact: View)
    requires OlderView(rows, first, stale, exact) && rows != []
    ensures OlderView(rows[..|rows| - 1], first, stale, exact)
  {
  }

  lemma {:induction false} OldViewCutsOff(rows: seq<Record>, first: nat, stale: View, exact: View)
    requires OlderView(rows, first, stale, exact)
    ensures InsertsCutOff(stale, exact, SplitOf(rows, first, stale), SplitOf(rows, first, exact))
    decreases |rows|
  {
    hide InsertsCutOff, Judge, Extend, SplitOf;
    if rows == [] {
      NothingCutOff(first, stale, exact);
    } else {
      var n := |rows| - 1;
      OlderStep(rows, first, stale, exact);
      OldViewCutsOff(rows[..n], first, stale, exact);
      SplitLast(rows, first, stale);
      SplitLast(rows, first, exact);
      CutOffStep(rows[n], first + n, stale, exact, SplitOf(rows[..n], first, stale), SplitOf(rows[..n], first, exact));
    }
  }

  /* ----- Moments of the reference importer's run ----- */

  lemma {:induction false} SimpleGrows(u: Upload, db: seq<Listing>, i: nat, j: nat)
    requires i <= j <= |u.file|
    ensures Simple(u, db, i) <= Simple(u, db, j)
    decreases j
  {
    hide Accepts;
    if i < j {
      SimpleGrows(u, db, i, j - 1);
    }
  }

  // Two moments with the later listings no longer than the earlier ones are the same moment.
  lemma SameMoment(u: Upload, db: seq<Listing>, i: nat, j: nat)
    requires i <= j <= |u.file| && Simple(u, db, j) <= Simple(u, db, i)
    ensures Simple(u, db, i) == Simple(u, db, j)
  {
    SimpleGrows(u, db, i, j);
  }

  // A longer list keeps what a shorter one holds.
  lemma MoreListings(now: seq<Listing>, later: seq<Listing>, job: nat, dealer: nat)
    requires now <= later
    ensures ImportedRows(now, job) <= ImportedRows(later, job)
    ensures OpenPlates(now) <= OpenPlates(later)
    ensures OpenCount(now, dealer) <= OpenCount(later, dealer)
  {
    assert later == now + later[|now|..];
    OpenAmongPrefix(now, later[|now|..], dealer, |now|);
    OpenAmongGrows(later, dealer, |now|, |later|);
  }

  lemma {:induction false} OpenAmongGrows(db: seq<Listing>, dealer: nat, i: nat, j: nat)
    requires i <= j <= |db|
    ensures OpenAmong(db, dealer, i) <= OpenAmong(db, dealer, j)
    decreases j
  {
    if i < j {
      OpenAmongGrows(db, dealer, i, j - 1);
    }
  }

  lemma BlockedLater(u: Upload, now: seq<Listing>, later: seq<Listing>)
    requires now <= later
    ensures forall p :: R.Blocked(u, now, p) ==> R.Blocked(u, later, p)
  {
    MoreListings(now, later, u.job, u.dealer);
    hide OpenPlates, OpenCount;
  }

  lemma AcceptedIsListed(u: Upload, db: seq<Listing>, i: nat, m: nat)
    requires i < m <= |u.file| && AcceptedAt(u, db, i)
    ensures u.file[i].Valid? && DraftOf(u, FIRST_ROW + i, u.file[i].plate) in Simple(u, db, m)
  {
    SimpleGrows(u, db, i + 1, m);
    var here, next := Simple(u, db, i), Simple(u, db, i + 1);
    assert next[|here|] == DraftOf(u, FIRST_ROW + i, u.file[i].plate);
    assert Simple(u, db, m)[|here|] == next[|here|];
    hide Simple;
  }

  lemma ImportedIsHeld(u: Upload, db: seq<Listing>, i: nat, m: nat)
    requires i < |u.file| && m <= |u.file| && ImportedRows(db, u.job) == {}
    requires FIRST_ROW + i in ImportedRows(Simple(u, db, m), u.job)
    ensures u.file[i].Valid? && u.file[i].plate in OpenPlates(Simple(u, db, m))
  {
    R.ImportedBySimple(u, db, m);
    hide Simple, ImportedRows, AcceptedAt;
    AcceptedIsListed(u, db, i, m);
  }

  // With the dealer's limit used up, nothing is accepted any more.
  lemma FullStays(u: Upload, db: seq<Listing>, m: nat)
    requires m <= |u.file| && OpenCount(Simple(u, db, m), u.dealer) >= u.limit
    ensures Simple(u, db, m) == Simple(u, db, |u.file|)
  {
    FullUpTo(u, db, m, |u.file|);
  }

  lemma {:induction false} FullUpTo(u: Upload, db: seq<Listing>, m: nat, n: nat)
    requires m <= n <= |u.file| && OpenCount(Simple(u, db, m), u.dealer) >= u.limit
    ensures Simple(u, db, m) == Simple(u, db, n)
    decreases n
  {
    hide OpenCount;
    if m < n {
      FullUpTo(u, db, m, n - 1);
    }
  }

  /* ----- The inserts of such a batch ----- */

  // What an attempt knew when it looked for held plates, with the listings as the reference importer has
  // them after m records: of the imported rows perhaps not all.
  ghost predicate LookedAt(u: Upload, db: seq<Listing>, from: nat, to: nat, seen: set<Plate>, imported: set<nat>,
      taken: set<Plate>, m: nat) {
    && from <= m <= |u.file| && from <= to <= |u.file|
    && imported <= ImportedRows(Simple(u, db, m), u.job)
    && R.SeenAreBlocked(u, Simple(u, db, m), seen)
    && taken == seen + ResumedPlates(u.file[from..to], FIRST_ROW + from, imported) + OpenPlates(Simple(u, db, m))
  }

  // A batch decided on that and on a later count of the dealer's open listings.
  ghost predicate DecidedAt(u: Upload, db: seq<Listing>, from: nat, to: nat, seen: set<Plate>, v: View, s: Split,
      m: nat) {
    && LookedAt(u, db, from, to, seen, v.imported, v.taken, m)
    && v.room <= Room(u, Simple(u, db, m))
    && s == R.Cut(u, from, to, v)
  }

  function ExactView(u: Upload, db: seq<Listing>, from: nat, to: nat, seen: set<Plate>, m: nat): View
    requires m <= |u.file| && from <= to <= |u.file|
  {
    ViewOf(u, u.file[from..to], FIRST_ROW + from, seen, Simple(u, db, m))
  }

  lemma StaleIsOlder(u: Upload, db: seq<Listing>, from: nat, to: nat, seen: set<Plate>, v: View, m: nat)
    requires ImportedRows(db, u.job) == {} && LookedAt(u, db, from, to, seen, v.imported, v.taken, m)
    requires v.room <= Room(u, Simple(u, db, m))
    ensures OlderView(u.file[from..to], FIRST_ROW + from, v, ExactView(u, db, from, to, seen, m))
  {
    var rows, exact := u.file[from..to], ExactView(u, db, from, to, seen, m);
    hide Simple, ImportedRows, OpenPlates, Room, R.SeenAreBlocked;
    forall k | 0 <= k < |rows| && rows[k].Valid? && FIRST_ROW + from + k in exact.imported
      ensures rows[k].plate in OpenPlates(Simple(u, db, m))
    {
      ImportedIsHeld(u, db, from + k, m);
    }
  }

  lemma BatchCutOff(u: Upload, db: seq<Listing>, from: nat, to: nat, seen: set<Plate>, v: View, s: Split, m: nat)
    requires ImportedRows(db, u.job) == {} && DecidedAt(u, db, from, to, seen, v, s, m)
    ensures
      var exact := ExactView(u, db, from, to, seen, m);
      && R.RightView(u, Simple(u, db, m), exact)
      && s.insert <= R.Cut(u, from, to, exact).insert && |s.insert| <= v.room
      && (s.insert == R.Cut(u, from, to, exact).insert || |s.insert| == v.room)
      && |s.resumed| <= |R.Cut(u, from, to, exact).resumed|
  {
    hide Simple, SplitOf, R.RightView, OlderView, R.SeenAreBlocked, ViewOf;
    R.ViewIsRight(u, db, m, from, to, seen);
    StaleIsOlder(u, db, from, to, seen, v, m);
    OldViewCutsOff(u.file[from..to], FIRST_ROW + from, v, ExactView(u, db, from, to, seen, m));
  }

  // Each of its inserts is the listing the reference importer takes next.
  lemma NextOfStale(u: Upload, db: seq<Listing>, from: nat, to: nat, seen: set<Plate>, v: View, s: Split, m: nat,
      k: nat) returns (i: nat)
    requires ImportedRows(db, u.job) == {} && DecidedAt(u, db, from, to, seen, v, s, m) && k < |s.insert|
    ensures m <= i < |u.file| && AcceptedAt(u, db, i)
    ensures Simple(u, db, i) == Simple(u, db, m) + Drafts(u, s.insert[..k])
    ensures s.insert[k] == Prepared(FIRST_ROW + i, u.file[i].plate)
  {
    hide Simple, SplitOf, R.RightView, R.Cut, AcceptedAt;
    var exact := ExactView(u, db, from, to, seen, m);
    BatchCutOff(u, db, from, to, seen, v, s, m);
    var inserts := R.Cut(u, from, to, exact).insert;
    i := R.PrefixIsSimple(u, db, m, from, to, exact, inserts, k);
    assert s.insert[..k] == inserts[..k];
  }

  // A batch whose inserts are all done has come to its end, or to the dealer's limit, and what it counts as
  // valid has been accepted.
  lemma AllOfStale(u: Upload, db: seq<Listing>, from: nat, to: nat, seen: set<Plate>, v: View, s: Split, m: nat)
    requires ImportedRows(db, u.job) == {} && DecidedAt(u, db, from, to, seen, v, s, m)
    ensures Simple(u, db, R.Later(m, to)) == Simple(u, db, m) + Drafts(u, s.insert) || |s.insert| == v.room
    ensures AcceptedCount(u, db, from) + |s.insert| + |s.resumed| <= AcceptedCount(u, db, to)
  {
    hide Simple, SplitOf, R.RightView, R.Cut;
    var exact := ExactView(u, db, from, to, seen, m);
    BatchCutOff(u, db, from, to, seen, v, s, m);
    R.InsertAgrees(u, db, m, from, to, exact);
    R.BatchTallies(u, db, m, from, to, exact);
  }

  lemma NextIsDraft(u: Upload, db: seq<Listing>, i: nat, inserts: seq<Prepared>, k: nat, start: seq<Listing>)
    requires i < |u.file| && AcceptedAt(u, db, i)
    requires k < |inserts| && inserts[k] == Prepared(FIRST_ROW + i, u.file[i].plate)
    requires Simple(u, db, i) == start + Drafts(u, inserts[..k])
    ensures Simple(u, db, i + 1) == Simple(u, db, i) + [DraftOf(u, inserts[k].row, inserts[k].plate)]
    ensures Simple(u, db, i + 1) == start + Drafts(u, inserts[..k + 1])
  {
    R.SimpleStep(u, db, i);
    hide Simple, AcceptedAt;
    assert inserts[..k + 1] == inserts[..k] + [inserts[k]];
    R.DraftsStep(u, start, inserts[..k], inserts[k]);
    assert Drafts(u, [inserts[k]]) == [DraftOf(u, inserts[k].row, inserts[k].plate)];
  }

  lemma ListedClashes(u: Upload, now: seq<Listing>, row: nat, plate: Plate)
    requires DraftOf(u, row, plate) in now
    ensures ClashesIn(now, DraftOf(u, row, plate))
  {
    var k :| 0 <= k < |now| && now[k] == DraftOf(u, row, plate);
    assert Clash(now[k], DraftOf(u, row, plate));
  }

  // Its next insert: the reference importer's next listing, or one that is there already.
  lemma InsertOrClash(u: Upload, db: seq<Listing>, from: nat, to: nat, seen: set<Plate>, v: View, s: Split, m0: nat,
      k: nat, m: nat) returns (m': nat)
    requires ImportedRows(db, u.job) == {} && DecidedAt(u, db, from, to, seen, v, s, m0) && k < |s.insert|
    requires m <= |u.file| && Simple(u, db, m0) + Drafts(u, s.insert[..k]) <= Simple(u, db, m)
    ensures
      var d := DraftOf(u, s.insert[k].row, s.insert[k].plate);
      !ClashesIn(Simple(u, db, m), d) ==>
        && m <= m' <= |u.file| && Simple(u, db, m') == Simple(u, db, m) + [d]
        && Simple(u, db, m') == Simple(u, db, m0) + Drafts(u, s.insert[..k + 1])
  {
    hide *;
    m' := m;
    var i := NextOfStale(u, db, from, to, seen, v, s, m0, k);
    if m <= i {
      SameMoment(u, db, m, i);
      m' := i + 1;
      NextIsDraft(u, db, i, s.insert, k, Simple(u, db, m0));
    } else {
      AcceptedIsListed(u, db, i, m);
      ListedClashes(u, Simple(u, db, m), FIRST_ROW + i, u.file[i].plate);
    }
  }

  // What is left of the room and what is open now reach the dealer's limit.
  predicate RoomIsTrue(u: Upload, now: seq<Listing>, room: nat, inserted: nat) {
    u.limit + inserted <= OpenCount(now, u.dealer) + room
  }

  // All its inserts done, the listings are where the reference importer is at the batch's end or later.
  lemma WholeStale(u: Upload, db: seq<Listing>, from: nat, to: nat, seen: set<Plate>, v: View, s: Split, m0: nat,
      m: nat) returns (m': nat)
    requires ImportedRows(db, u.job) == {} && DecidedAt(u, db, from, to, seen, v, s, m0)
    requires m <= |u.file| && Simple(u, db, m0) + Drafts(u, s.insert) <= Simple(u, db, m)
    requires RoomIsTrue(u, Simple(u, db, m), v.room, |s.insert|)
    ensures m <= m' <= |u.file| && to <= m' && Simple(u, db, m') == Simple(u, db, m)
    ensures AcceptedCount(u, db, from) + |s.insert| + |s.resumed| <= AcceptedCount(u, db, to)
  {
    hide Simple, AcceptedCount, OpenCount, Drafts, R.Cut, OpenPlates, ImportedRows, Room;
    AllOfStale(u, db, from, to, seen, v, s, m0);
    var end := R.Later(m0, to);
    if |s.insert| == v.room {
      FullStays(u, db, m);
      m' := |u.file|;
    } else if m < end {
      SameMoment(u, db, m, end);
      m' := end;
    } else {
      m' := m;
    }
  }

  // And every plate it has come across stays blocked.
  lemma SeenOfStale(u: Upload, db: seq<Listing>, from: nat, to: nat, seen: set<Plate>, v: View, s: Split, m0: nat,
      now: seq<Listing>)
    requires ImportedRows(db, u.job) == {} && DecidedAt(u, db, from, to, seen, v, s, m0)
    requires Simple(u, db, m0) + Drafts(u, s.insert) <= now && RoomIsTrue(u, now, v.room, |s.insert|)
    ensures R.SeenAreBlocked(u, now, SeenAfter(seen, s))
  {
    var here := Simple(u, db, m0);
    assert here <= now;
    BlockedLater(u, here, now);
    ResumedOfStale(u, db, from, to, v, s, m0);
    R.AppendPlates(u, here, s.insert);
    MoreListings(here + Drafts(u, s.insert), now, u.job, u.dealer);
    SplitCountsEveryRecord(u.file[from..to], FIRST_ROW + from, v);
    hide Simple, OpenCount, Drafts, OpenPlates, ImportedRows, SplitOf;
    assert s.over != [] ==> forall p :: R.Blocked(u, now, p);
  }

  lemma ResumedOfStale(u: Upload, db: seq<Listing>, from: nat, to: nat, v: View, s: Split, m: nat)
    requires ImportedRows(db, u.job) == {} && from <= to <= |u.file| && m <= |u.file| && s == R.Cut(u, from, to, v)
    requires v.imported <= ImportedRows(Simple(u, db, m), u.job)
    ensures forall p :: p in PlatesOf(s.resumed) ==> R.Blocked(u, Simple(u, db, m), p)
  {
    hide Simple, ImportedRows, SplitOf, OpenCount, OpenPlates;
    R.ResumedAreImported(u.file[from..to], FIRST_ROW + from, v);
    forall p | p in PlatesOf(s.resumed) ensures R.Blocked(u, Simple(u, db, m), p) {
      var q :| q in s.resumed && q.plate == p;
      ImportedIsHeld(u, db, q.row - FIRST_ROW, m);
    }
  }

  /* ----- Every run ----- */

  // What an attempt has in memory about its batch, which starts behind record `from`: what it found was so
  // at some moment of the reference importer's run, and what it inserted is still there.
  ghost predicate Follows(u: Upload, db: seq<Listing>, from: nat, seen: set<Plate>, now: seq<Listing>, b: Work)
    requires from <= |u.file|
  {
    match b
    case Imported(_, imported) => imported <= ImportedRows(now, u.job)
    case Taken(size, imported, taken) => exists m0 :: Looked(u, db, from, seen, now, size, imported, taken, m0)
    case Writing(size, v, s, inserted, _) => exists m0 :: Wrote(u, db, from, seen, now, size, v, s, inserted, m0)
  }

  ghost predicate Looked(u: Upload, db: seq<Listing>, from: nat, seen: set<Plate>, now: seq<Listing>, size: nat,
      imported: set<nat>, taken: set<Plate>, m0: nat)
    requires from <= |u.file|
  {
    LookedAt(u, db, from, BatchEnd(u, from, size), seen, imported, taken, m0) && Simple(u, db, m0) <= now
  }

  ghost predicate Wrote(u: Upload, db: seq<Listing>, from: nat, seen: set<Plate>, now: seq<Listing>, size: nat,
      v: View, s: Split, inserted: nat, m0: nat)
    requires from <= |u.file|
  {
    && DecidedAt(u, db, from, BatchEnd(u, from, size), seen, v, s, m0)
    && inserted <= |s.insert| && Simple(u, db, m0) + Drafts(u, s.insert[..inserted]) <= now
    && RoomIsTrue(u, now, v.room, inserted)
  }

  // The listings are where the reference importer is after m records, at the checkpoint or later, and no
  // more records are counted as valid than it has accepted.
  ghost predicate Underway(c: P.Config, db: seq<Listing>, w: World, m: nat) {
    && w.state.job.counts.processed <= m <= |c.upload.file| && w.listings == Simple(c.upload, db, m)
    && w.state.job.counts.valid <= AcceptedCount(c.upload, db, w.state.job.counts.processed)
    && (forall o :: o in w.state.attempts ==> From(w, o) <= w.state.job.counts.processed && SeenBlocked(c, w, o))
    && forall o :: o in w.work ==> AtWork(c, w, o) && WorkFollows(c, db, w, o)
  }

  ghost predicate SeenBlocked(c: P.Config, w: World, o: nat) {
    o in w.seen && R.SeenAreBlocked(c.upload, w.listings, w.seen[o])
  }

  ghost predicate WorkFollows(c: P.Config, db: seq<Listing>, w: World, o: nat)
    requires AtWork(c, w, o)
  {
    Follows(c.upload, db, From(w, o), w.seen[o], w.listings, w.work[o])
  }

  lemma FollowsLater(u: Upload, db: seq<Listing>, from: nat, seen: set<Plate>, now: seq<Listing>,
      later: seq<Listing>, b: Work)
    requires from <= |u.file| && Follows(u, db, from, seen, now, b) && now <= later
    ensures Follows(u, db, from, seen, later, b)
  {
    MoreListings(now, later, u.job, u.dealer);
    hide Simple, ImportedRows, OpenPlates, OpenCount, LookedAt, DecidedAt, Drafts;
    match b
    case Imported(_, _) =>
    case Taken(size, imported, taken) =>
      var m0 :| Looked(u, db, from, seen, now, size, imported, taken, m0);
      assert Looked(u, db, from, seen, later, size, imported, taken, m0);
    case Writing(size, v, s, inserted, _) =>
      var m0 :| Wrote(u, db, from, seen, now, size, v, s, inserted, m0);
      assert Wrote(u, db, from, seen, later, size, v, s, inserted, m0);
  }

  // What a step leaves alone of an attempt's work.
  lemma WorkStays(c: P.Config, db: seq<Listing>, w: World, after: World, o: nat)
    requires AtWork(c, w, o) && WorkFollows(c, db, w, o) && w.listings <= after.listings
    requires o in after.work && after.work[o] == w.work[o] && o in after.seen && after.seen[o] == w.seen[o]
    requires o in after.state.attempts && after.state.attempts[o] == w.state.attempts[o]
    ensures AtWork(c, after, o) && WorkFollows(c, db, after, o)
  {
    hide Follows;
    FollowsLater(c.upload, db, From(w, o), w.seen[o], w.listings, after.listings, w.work[o]);
  }

  lemma SeenStays(c: P.Config, w: World, after: World, o: nat)
    requires SeenBlocked(c, w, o) && o in after.seen && after.seen[o] == w.seen[o] && w.listings <= after.listings
    ensures SeenBlocked(c, after, o)
  {
    BlockedLater(c.upload, w.listings, after.listings);
    hide R.Blocked;
  }

  // A new attempt reads on from the checkpoint.
  lemma NewReads(c: P.Config, s: P.State, e: P.Event, o: nat)
    requires P.Enabled(c, s, e) && o !in s.attempts && o in P.Apply(c, s, e).attempts
    ensures e.Deliver? && e.owner == o && P.Apply(c, s, e).attempts[o].read == s.job.counts.processed
  {
    hide P.NextCounts, P.JobAfter, P.LeftAfter, P.DecisionsAfter, P.RequeuesAfter;
  }

  lemma ProtocolFollows(c: P.Config, db: seq<Listing>, w: World, m: nat, e: P.Event)
    requires JobOk(c, w.state) && Underway(c, db, w, m) && Possible(c, w, Protocol(e))
    ensures Underway(c, db, Stepped(c, w, e), m)
  {
    var after := Stepped(c, w, e);
    OthersKeepCounts(c, w.state, e);
    AttemptsStay(c, w.state, e);
    hide P.Apply, P.Enabled, Simple, WorkFollows, AtWork, JobOk, R.SeenAreBlocked, Reading;
    forall o | o in after.state.attempts
      ensures From(after, o) <= after.state.job.counts.processed && SeenBlocked(c, after, o)
    {
      if o !in w.state.attempts {
        NewReads(c, w.state, e, o);
        assert after.seen[o] == {};
        assert R.SeenAreBlocked(c.upload, after.listings, {}) by { NothingSeen(c.upload, after.listings); }
      } else {
        SeenStepped(c, w, e, o);
        SeenStays(c, w, after, o);
      }
    }
    forall o | o in after.work ensures AtWork(c, after, o) && WorkFollows(c, db, after, o) {
      assert AtWork(c, w, o);
      SeenStepped(c, w, e, o);
      WorkStays(c, db, w, after, o);
    }
  }

  lemma NothingSeen(u: Upload, now: seq<Listing>)
    ensures R.SeenAreBlocked(u, now, {})
  {
  }

  // Only a new attempt's memory of plates is new.
  lemma SeenStepped(c: P.Config, w: World, e: P.Event, o: nat)
    requires P.OwnerOk(c, w.state) && P.Enabled(c, w.state, e) && o in w.state.attempts && o in w.seen
    ensures o in Stepped(c, w, e).seen && Stepped(c, w, e).seen[o] == w.seen[o]
  {
    hide P.Apply;
  }

  // A step that changes one attempt's batch and perhaps adds to the listings.
  lemma BatchStepFollows(c: P.Config, db: seq<Listing>, w: World, m: nat, o: nat, after: World, m': nat)
    requires Underway(c, db, w, m) && Reading(c, w, o)
    requires o in after.work && after == w.(listings := after.listings, work := w.work[o := after.work[o]])
    requires m <= m' <= |c.upload.file| && w.listings <= after.listings == Simple(c.upload, db, m')
    requires AtWork(c, after, o) && WorkFollows(c, db, after, o)
    ensures Underway(c, db, after, m')
  {
    hide Simple, WorkFollows, AtWork, SeenBlocked, Reading;
    forall other | other in after.state.attempts ensures SeenBlocked(c, after, other) {
      SeenThere(c, w, other);
      SeenStays(c, w, after, other);
    }
    forall other | other in after.work ensures AtWork(c, after, other) && WorkFollows(c, db, after, other) {
      if other != o {
        assert AtWork(c, w, other);
        LivesAtWork(c, w, other);
        WorkStays(c, db, w, after, other);
      }
    }
  }

  lemma SeenThere(c: P.Config, w: World, o: nat)
    requires SeenBlocked(c, w, o)
    ensures o in w.seen
  {
  }

  lemma LivesAtWork(c: P.Config, w: World, o: nat)
    requires AtWork(c, w, o)
    ensures o in w.state.attempts && o in w.seen
  {
  }

  lemma ImportedFollows(c: P.Config, db: seq<Listing>, w: World, m: nat, o: nat, size: nat)
    requires Underway(c, db, w, m) && Reading(c, w, o) && 0 < size
    ensures Underway(c, db, FoundImported(c, w, o, size), m)
  {
    BatchStepFollows(c, db, w, m, o, FoundImported(c, w, o, size), m);
  }

  lemma TakenFollows(c: P.Config, db: seq<Listing>, w: World, m: nat, o: nat)
    requires Underway(c, db, w, m) && AtWork(c, w, o) && w.work[o].Imported?
    ensures Underway(c, db, FoundTaken(c, w, o), m)
  {
    var after, b := FoundTaken(c, w, o), w.work[o];
    assert WorkFollows(c, db, w, o) && SeenBlocked(c, w, o);
    hide Simple, OpenPlates, ImportedRows, ResumedPlates, R.SeenAreBlocked;
    assert Looked(c.upload, db, From(w, o), w.seen[o], w.listings, b.size, b.imported, after.work[o].taken, m);
    BatchStepFollows(c, db, w, m, o, after, m);
  }

  lemma DecidedWork(c: P.Config, w: World, o: nat)
    requires AtWork(c, w, o) && w.work[o].Taken?
    ensures
      var b, after := w.work[o], Decided(c, w, o);
      var v := View(b.imported, b.taken, Room(c.upload, w.listings));
      && AtWork(c, after, o) && after == w.(work := w.work[o := after.work[o]]) && Reading(c, w, o)
      && after.work[o] == Writing(b.size, v, SplitOf(Rows(c, w, o, b.size), FIRST_ROW + From(w, o), v), 0, false)
  {
  }

  lemma WroteFollows(c: P.Config, db: seq<Listing>, w: World, o: nat, m0: nat)
    requires AtWrites(c, w, o)
    requires
      var b := w.work[o];
      Wrote(c.upload, db, From(w, o), w.seen[o], w.listings, b.size, b.view, b.split, b.inserted, m0)
    ensures WorkFollows(c, db, w, o)
  {
  }

  lemma TakenWork(c: P.Config, db: seq<Listing>, w: World, o: nat) returns (m0: nat)
    requires AtWork(c, w, o) && WorkFollows(c, db, w, o) && w.work[o].Taken?
    ensures
      var b := w.work[o];
      Looked(c.upload, db, From(w, o), w.seen[o], w.listings, b.size, b.imported, b.taken, m0)
  {
    var b := w.work[o];
    hide Looked;
    m0 :| Looked(c.upload, db, From(w, o), w.seen[o], w.listings, b.size, b.imported, b.taken, m0);
  }

  lemma WrittenWork(c: P.Config, db: seq<Listing>, w: World, o: nat) returns (m0: nat)
    requires AtWrites(c, w, o) && WorkFollows(c, db, w, o)
    ensures
      var b := w.work[o];
      Wrote(c.upload, db, From(w, o), w.seen[o], w.listings, b.size, b.view, b.split, b.inserted, m0)
  {
    var b := w.work[o];
    hide Wrote;
    m0 :| Wrote(c.upload, db, From(w, o), w.seen[o], w.listings, b.size, b.view, b.split, b.inserted, m0);
  }

  lemma WorksWell(c: P.Config, db: seq<Listing>, w: World, m: nat, o: nat)
    requires Underway(c, db, w, m) && o in w.work
    ensures AtWork(c, w, o) && WorkFollows(c, db, w, o)
  {
  }

  lemma DecidedFollows(c: P.Config, db: seq<Listing>, w: World, m: nat, o: nat)
    requires Underway(c, db, w, m) && AtWork(c, w, o) && w.work[o].Taken?
    ensures Underway(c, db, Decided(c, w, o), m)
  {
    DecidedWork(c, w, o);
    LivesAtWork(c, w, o);
    WithinFile(c, w, o);
    WhereListings(c, db, w, m);
    hide *;
    var after, b := Decided(c, w, o), w.work[o];
    WorksWell(c, db, w, m, o);
    var m0 := TakenWork(c, db, w, o);
    RoomNow(c.upload, db, From(w, o), w.seen[o], w.listings, b, m0, after.work[o].view, after.work[o].split);
    WroteFollows(c, db, after, o, m0);
    BatchStepFollows(c, db, w, m, o, after, m);
  }

  lemma WithinFile(c: P.Config, w: World, o: nat)
    requires AtWork(c, w, o)
    ensures From(w, o) <= |c.upload.file|
  {
  }

  lemma WhereListings(c: P.Config, db: seq<Listing>, w: World, m: nat)
    requires Underway(c, db, w, m)
    ensures m <= |c.upload.file| && w.listings == Simple(c.upload, db, m)
  {
  }

  lemma RoomNow(u: Upload, db: seq<Listing>, from: nat, seen: set<Plate>, now: seq<Listing>, b: Work, m0: nat, v: View,
      s: Split)
    requires from <= |u.file| && b.Taken? && Looked(u, db, from, seen, now, b.size, b.imported, b.taken, m0)
    requires v == View(b.imported, b.taken, Room(u, now))
    requires s == SplitOf(u.file[from..BatchEnd(u, from, b.size)], FIRST_ROW + from, v)
    ensures Wrote(u, db, from, seen, now, b.size, v, s, 0, m0)
  {
    MoreListings(Simple(u, db, m0), now, u.job, u.dealer);
    NoDrafts(u, Simple(u, db, m0), s.insert);
    hide Simple, SplitOf, OpenCount, OpenPlates, ImportedRows, ResumedPlates, R.SeenAreBlocked;
  }

  lemma InsertedFollows(c: P.Config, db: seq<Listing>, w: World, m: nat, o: nat) returns (m': nat)
    requires ImportedRows(db, c.upload.job) == {} && Underway(c, db, w, m) && AtInsert(c, w, o)
    ensures Underway(c, db, Inserted(c, w, o), m')
  {
    var u, after, b := c.upload, Inserted(c, w, o), w.work[o];
    WorksWell(c, db, w, m, o);
    var m0 := WrittenWork(c, db, w, o);
    hide DecidedAt, Simple, SplitOf, OpenCount, ClashesIn, Drafts, RoomIsTrue;
    m' := InsertOrClash(u, db, From(w, o), To(c, w, o, b.size), w.seen[o], b.view, b.split, m0, b.inserted, m);
    if ClashesIn(w.listings, NextDraft(c, b)) {
      m' := m;
      assert Wrote(u, db, From(w, o), w.seen[o], after.listings, b.size, b.view, b.split, b.inserted, m0);
    } else {
      OneMoreOpen(u, w.listings, NextDraft(c, b), b.view.room, b.inserted);
      assert Wrote(u, db, From(w, o), w.seen[o], after.listings, b.size, b.view, b.split, b.inserted + 1, m0);
    }
    BatchStepFollows(c, db, w, m, o, after, m');
  }

  lemma OneMoreOpen(u: Upload, now: seq<Listing>, d: Listing, room: nat, inserted: nat)
    requires RoomIsTrue(u, now, room, inserted) && Open(d) && d.dealer == u.dealer
    ensures RoomIsTrue(u, now + [d], room, inserted + 1)
  {
    OpenAmongPrefix(now, [d], u.dealer, |now|);
  }

  // What a checkpoint changes: the counter, the attempt and its memory, and nothing else.
  ghost predicate MovesOn(w: World, after: World, o: nat, to: nat, valid: nat, seen: set<Plate>)
    requires o in w.state.attempts
  {
    && (after.state.job.counts == w.state.job.counts ||
      (From(w, o) == w.state.job.counts.processed && after.state.job.counts.processed == to &&
        after.state.job.counts.valid == w.state.job.counts.valid + valid))
    && w.state.job.counts.processed <= after.state.job.counts.processed
    && (o in after.state.attempts ==> From(after, o) <= after.state.job.counts.processed)
    && (forall other :: other in after.state.attempts ==> other in w.state.attempts)
    && (forall other :: other in after.state.attempts && other != o ==>
      after.state.attempts[other] == w.state.attempts[other])
    && after.listings == w.listings && after.seen == w.seen[o := seen]
    && o !in after.work && after.work.Keys <= w.work.Keys * after.state.attempts.Keys
    && forall other :: other in after.work ==> after.work[other] == w.work[other]
  }

  lemma CheckpointMoves(c: P.Config, w: World, o: nat)
    requires JobOk(c, w.state) && AtCheckpoint(c, w, o) && From(w, o) <= w.state.job.counts.processed
    requires w.work[o].split == R.Cut(c.upload, From(w, o), To(c, w, o, w.work[o].size), w.work[o].view)
    ensures
      var s := w.work[o].split;
      MovesOn(w, Counted(c, w, o), o, To(c, w, o, w.work[o].size), |s.insert| + |s.resumed|, SeenAfter(w.seen[o], s))
  {
    var b := w.work[o];
    BatchCounts(c, w.state, o, b.size, b.view);
    if HeldBy(w.state.job, Csv, o) {
      BatchReads(c, w.state, o, b.size, b.view);
    }
    AttemptsStay(c, w.state, P.BatchBy(o, b.size, b.view));
    hide P.Apply, P.Enabled, JobOk, SplitOf, RejectedRows;
  }

  lemma BatchReads(c: P.Config, s: P.State, o: nat, size: nat, v: View)
    requires P.Enabled(c, s, P.BatchBy(o, size, v)) && P.OwnerOk(c, s) && HeldBy(s.job, Csv, o)
    ensures
      var after := P.Apply(c, s, P.BatchBy(o, size, v));
      o in after.attempts && after.attempts[o].read == after.job.counts.processed
  {
    hide P.NextCounts, P.LeftAfter, P.DecisionsAfter, P.RequeuesAfter;
  }

  lemma CheckpointUnderway(c: P.Config, db: seq<Listing>, w: World, m: nat, o: nat, m': nat, after: World, to: nat,
      valid: nat, seen: set<Plate>)
    requires Underway(c, db, w, m) && o in w.state.attempts && MovesOn(w, after, o, to, valid, seen)
    requires R.SeenAreBlocked(c.upload, w.listings, seen)
    requires m <= m' <= |c.upload.file| && to <= m' && w.listings == Simple(c.upload, db, m')
    requires AcceptedCount(c.upload, db, From(w, o)) + valid <= AcceptedCount(c.upload, db, to)
    ensures Underway(c, db, after, m')
  {
    hide Simple, AcceptedCount, WorkFollows, AtWork, R.SeenAreBlocked;
    forall other | other in after.state.attempts
      ensures From(after, other) <= after.state.job.counts.processed && SeenBlocked(c, after, other)
    {
      if other != o {
        SeenStays(c, w, after, other);
      }
    }
    forall other | other in after.work ensures AtWork(c, after, other) && WorkFollows(c, db, after, other) {
      assert AtWork(c, w, other);
      LivesAtWork(c, w, other);
      WorkStays(c, db, w, after, other);
    }
  }

  lemma SplitIsCut(u: Upload, db: seq<Listing>, from: nat, to: nat, seen: set<Plate>, v: View, s: Split, m: nat)
    requires DecidedAt(u, db, from, to, seen, v, s, m)
    ensures from <= to <= |u.file| && s == R.Cut(u, from, to, v)
  {
  }

  lemma CountedFollows(c: P.Config, db: seq<Listing>, w: World, m: nat, o: nat) returns (m': nat)
    requires ImportedRows(db, c.upload.job) == {} && JobOk(c, w.state)
    requires Underway(c, db, w, m) && AtCheckpoint(c, w, o)
    ensures Underway(c, db, Counted(c, w, o), m')
  {
    var u, after, b := c.upload, Counted(c, w, o), w.work[o];
    var from, to := From(w, o), To(c, w, o, b.size);
    WorksWell(c, db, w, m, o);
    var m0 := WrittenWork(c, db, w, o);
    hide DecidedAt, Simple, SplitOf, Drafts, RoomIsTrue, R.SeenAreBlocked, P.Apply, P.Enabled, JobOk, RejectedRows,
      SeenAfter;
    assert b.split.insert[..b.inserted] == b.split.insert;
    assert b.split == R.Cut(u, from, to, b.view) by { SplitIsCut(u, db, from, to, w.seen[o], b.view, b.split, m0); }
    m' := WholeStale(u, db, from, to, w.seen[o], b.view, b.split, m0, m);
    SeenOfStale(u, db, from, to, w.seen[o], b.view, b.split, m0, w.listings);
    CheckpointMoves(c, w, o);
    CheckpointUnderway(c, db, w, m, o, m', after, to, |b.split.insert| + |b.split.resumed|,
      SeenAfter(w.seen[o], b.split));
  }

  lemma StepFollows(c: P.Config, db: seq<Listing>, w: World, m: nat, x: Step) returns (m': nat)
    requires ImportedRows(db, c.upload.job) == {} && JobOk(c, w.state) && Underway(c, db, w, m)
    requires Possible(c, w, x) && !x.Elsewhere?
    ensures Underway(c, db, After(c, w, x), m')
  {
    hide JobOk, Underway, Inserted, Counted, Decided, Stepped, FoundTaken;
    m' := m;
    match x
    case Protocol(e) => ProtocolFollows(c, db, w, m, e);
    case LookForImported(o, size) => ImportedFollows(c, db, w, m, o, size);
    case LookForTaken(o) => TakenFollows(c, db, w, m, o);
    case CountOpen(o) => DecidedFollows(c, db, w, m, o);
    case InsertNext(o) => m' := InsertedFollows(c, db, w, m, o);
    case RejectOne(o, r) => RejectedFollows(c, db, w, m, r);
    case CheckpointBatch(o) => m' := CountedFollows(c, db, w, m, o);
  }

  lemma RejectedFollows(c: P.Config, db: seq<Listing>, w: World, m: nat, r: Rejection)
    requires Underway(c, db, w, m)
    ensures Underway(c, db, RejectedOne(w, r), m)
  {
    hide Simple, Follows;
    var after := RejectedOne(w, r);
    forall o | o in after.work ensures AtWork(c, after, o) && WorkFollows(c, db, after, o) {
      assert AtWork(c, w, o) && WorkFollows(c, db, w, o);
    }
    forall o | o in after.state.attempts ensures SeenBlocked(c, after, o) {
      assert SeenBlocked(c, w, o);
    }
  }

  lemma StartsUnderway(c: P.Config, db: seq<Listing>, w: World)
    requires P.Initial(c, w.state) && w.listings == db && w.work == map[]
    ensures Underway(c, db, w, 0)
  {
  }

  lemma {:induction false} RunKeepsUnderway(c: P.Config, db: seq<Listing>, worlds: seq<World>, steps: seq<Step>,
      k: nat) returns (m: nat)
    requires P.Sensible(c) && ImportedRows(db, c.upload.job) == {} && Run(c, db, worlds, steps) && k < |worlds|
    requires forall n :: 0 <= n < k ==> !steps[n].Elsewhere?
    ensures Underway(c, db, worlds[k], m)
  {
    hide Underway, After, Possible, P.Initial, JobOk;
    if k == 0 {
      m := 0;
      StartsUnderway(c, db, worlds[0]);
    } else {
      m := RunKeepsUnderway(c, db, worlds, steps, k - 1);
      JobIsOk(c, db, worlds, steps, k - 1);
      m := StepFollows(c, db, worlds[k - 1], m, steps[k - 1]);
    }
  }

  // In every interleaving of any attempts, on a stock that only this upload changes: the listings are
  // those of the reference importer at the checkpoint or later, so nothing is imported twice, out of order
  // or past the dealer's limit, and no more records are counted as valid than it accepts; and a completed
  // job has all of them and has rejected every other row.
  lemma OverlappingJobImportsAll(c: P.Config, db: seq<Listing>, worlds: seq<World>, steps: seq<Step>, k: nat)
    requires P.Sensible(c) && ImportedRows(db, c.upload.job) == {} && Run(c, db, worlds, steps) && k < |worlds|
    requires forall n :: 0 <= n < k ==> !steps[n].Elsewhere?
    ensures
      var w, u := worlds[k], c.upload;
      && (exists m :: w.state.job.counts.processed <= m <= |u.file| && w.listings == Simple(u, db, m))
      && w.state.job.counts.processed <= |u.file|
      && w.state.job.counts.valid <= AcceptedCount(u, db, w.state.job.counts.processed)
      && (Done(w.state.job.csv.status) ==>
            w.listings == Simple(u, db, |u.file|) && R.Refused(u, db, 0, |u.file|) <= w.rejected.Keys)
  {
    var m := RunKeepsUnderway(c, db, worlds, steps, k);
    NoRowIsLost(c, db, worlds, steps, k);
    JobIsOk(c, db, worlds, steps, k);
    hide Run, WorkOk, CoveredRows, Simple, P.SlotOk, P.OwnerOk, P.AttemptsOk;
    if Done(worlds[k].state.job.csv.status) {
      RefusedAreRejected(c, db, worlds[k]);
    }
  }

  lemma RefusedAreRejected(c: P.Config, db: seq<Listing>, w: World)
    requires ImportedRows(db, c.upload.job) == {} && w.listings == Simple(c.upload, db, |c.upload.file|)
    requires forall row :: FIRST_ROW <= row < FIRST_ROW + |c.upload.file| ==> Stored(c, w, row)
    ensures R.Refused(c.upload, db, 0, |c.upload.file|) <= w.rejected.Keys
  {
    R.ImportedBySimple(c.upload, db, |c.upload.file|);
    hide Simple, ImportedRows, AcceptedAt;
    forall row | row in R.Refused(c.upload, db, 0, |c.upload.file|) ensures row in w.rejected {
      assert Stored(c, w, row);
    }
  }

  /* ----- What overlapping attempts can get wrong ----- */

  // A file of one row. The first attempt is handed back with its insert on the way; the second one looks
  // for imported rows before it lands and for held plates after.
  function RaceStep(k: nat): Step
    requires k < 13
  {
    if k == 0 then Protocol(P.Deliver(Csv, 1))
    else if k == 1 then LookForImported(1, 1)
    else if k == 2 then LookForTaken(1)
    else if k == 3 then CountOpen(1)
    else if k == 4 then Protocol(P.Shutdown(1))
    else if k == 5 then Protocol(P.Deliver(Csv, 2))
    else if k == 6 then LookForImported(2, 1)
    else if k == 7 then InsertNext(1)
    else if k == 8 then LookForTaken(2)
    else if k == 9 then CountOpen(2)
    else if k == 10 then RejectOne(2, Rejection(FIRST_ROW, Duplicate))
    else if k == 11 then CheckpointBatch(2)
    else Protocol(P.CompleteBy(2))
  }

  function RaceJob(k: nat): Job {
    var claimed := NEW_JOB.(csv := Progress(Processing, 1), owner := Some(1), expires := Some(JOB_LEASE_MS));
    var taken := NEW_JOB.(csv := Progress(Processing, 2), owner := Some(2), expires := Some(JOB_LEASE_MS));
    if k == 0 then NEW_JOB
    else if k <= 4 then claimed
    else if k == 5 then NEW_JOB.(csv := Progress(Pending, 1))
    else if k <= 11 then taken
    else if k == 12 then taken.(counts := Counts(1, 0, 0, 1), total := 1)
    else NEW_JOB.(csv := Progress(CompletedWithErrors, 2), counts := Counts(1, 0, 0, 1), total := 1)
  }

  function RaceState(k: nat): P.State {
    var first, second := P.Attempt(Csv, 1, NOTHING_PROCESSED, 0), P.Attempt(Csv, 2, NOTHING_PROCESSED, 0);
    P.State(RaceJob(k), 0, if k == 0 then {} else if k <= 5 then {1} else {1, 2},
      if k == 0 then map[] else if k <= 5 || k == 13 then map[1 := first]
        else if k <= 11 then map[1 := first, 2 := second]
        else map[1 := first, 2 := P.Attempt(Csv, 2, Counts(1, 0, 0, 1), 1)],
      if k == 0 then 2 else if k <= 5 then 1 else 0, 0, multiset{}, multiset{})
  }

  function FirstWork(u: Upload, p: Plate, k: nat): Work {
    var split := EMPTY_SPLIT.(insert := [Prepared(FIRST_ROW, p)]);
    if k == 2 then Imported(1, {})
    else if k == 3 then Taken(1, {}, {})
    else Writing(1, View({}, {}, u.limit), split, if k <= 7 then 0 else 1, false)
  }

  function SecondWork(u: Upload, p: Plate, k: nat): Work
    requires 0 < u.limit
  {
    var split := EMPTY_SPLIT.(repeats := [Prepared(FIRST_ROW, p)]);
    if k <= 8 then Imported(1, {})
    else if k == 9 then Taken(1, {}, {p})
    else Writing(1, View({}, {p}, u.limit - 1), split, 0, false)
  }

  function RaceWorld(u: Upload, p: Plate, k: nat): World
    requires 0 < u.limit
  {
    World(RaceState(k),
      if k <= 7 then [] else [DraftOf(u, FIRST_ROW, p)],
      if k <= 10 then map[] else map[FIRST_ROW := Duplicate],
      if k == 0 then map[] else if k <= 5 then map[1 := {}] else map[1 := {}, 2 := {}],
      if k <= 1 then map[] else if k <= 6 || 12 <= k then map[1 := FirstWork(u, p, k)]
        else map[1 := FirstWork(u, p, k), 2 := SecondWork(u, p, k)])
  }

  lemma RaceFacts(u: Upload, p: Plate)
    requires u.file == [Valid(p)] && 0 < u.limit
    ensures
      var d := DraftOf(u, FIRST_ROW, p);
      && OpenPlates([]) == {} && OpenPlates([d]) == {p}
      && ImportedRows([], u.job) == {} && ImportedRows([d], u.job) == {FIRST_ROW}
      && Room(u, []) == u.limit && Room(u, [d]) == u.limit - 1
      && SplitOf(u.file, FIRST_ROW, View({}, {}, u.limit)) == EMPTY_SPLIT.(insert := [Prepared(FIRST_ROW, p)])
      && SplitOf(u.file, FIRST_ROW, View({}, {p}, u.limit - 1)) == EMPTY_SPLIT.(repeats := [Prepared(FIRST_ROW, p)])
      && ResumedPlates(u.file, FIRST_ROW, {}) == {} && !ClashesIn([], d)
      && Simple(u, [], 1) == [d] && AcceptedCount(u, [], 1) == 1
  {
    var d := DraftOf(u, FIRST_ROW, p);
    assert OpenAmong([d], u.dealer, 0) == 0 && OpenAmong([d], u.dealer, 1) == 1;
    assert d in [d];
    assert u.file[..0] == [];
    assert Simple(u, [], 0) == [] && OpenPlates([]) == {} && OpenCount([], u.dealer) == 0;
  }

  lemma RepeatFacts(p: Plate)
    ensures
      var split := EMPTY_SPLIT.(repeats := [Prepared(FIRST_ROW, p)]);
      && RejectedRows(split) == {FIRST_ROW} && SeenAfter({}, split) == {}
      && Rejections(split) == [Rejection(FIRST_ROW, Duplicate)]
  {
    assert Prepared(FIRST_ROW, p) in [Prepared(FIRST_ROW, p)];
  }

  predicate Race(c: P.Config, p: Plate) {
    c.upload.file == [Valid(p)] && 0 < c.upload.limit && c.deliveries == 2
  }

  predicate Goes(c: P.Config, p: Plate, k: nat)
    requires Race(c, p) && k < 13
  {
    Possible(c, RaceWorld(c.upload, p, k), RaceStep(k)) &&
      After(c, RaceWorld(c.upload, p, k), RaceStep(k)) == RaceWorld(c.upload, p, k + 1)
  }

  lemma RaceHandsBack(c: P.Config, p: Plate, k: nat)
    requires Race(c, p) && k in {0, 4}
    ensures Goes(c, p, k)
  {
    hide Held, Counted, Inserted, Decided, FoundTaken, FoundImported, RejectedOne, AtCheckpoint, AtInsert, AtWrites,
      AtWork, Reading, SecondWork, DraftOf, P.NextCounts;
  }

  lemma RaceClaimsAgain(c: P.Config, p: Plate, k: nat)
    requires Race(c, p) && k == 5
    ensures Goes(c, p, k)
  {
    hide Held, Counted, Inserted, Decided, FoundTaken, FoundImported, RejectedOne, AtCheckpoint, AtInsert, AtWrites,
      AtWork, Reading, SecondWork, DraftOf, P.NextCounts;
  }

  lemma RaceCompletes(c: P.Config, p: Plate, k: nat)
    requires Race(c, p) && k == 12
    ensures Goes(c, p, k)
  {
    hide Held, Counted, Inserted, Decided, FoundTaken, FoundImported, RejectedOne, AtCheckpoint, AtInsert, AtWrites,
      AtWork, Reading, SecondWork, DraftOf, P.NextCounts;
  }

  lemma RaceLooks(c: P.Config, p: Plate, k: nat)
    requires Race(c, p) && k in {1, 6}
    ensures Goes(c, p, k)
  {
    RaceFacts(c.upload, p);
    assert c.upload.file[0..1] == c.upload.file;
    hide P.Apply, P.Enabled, Stepped, Counted, AtCheckpoint, OpenPlates, ImportedRows, Room, SplitOf, ResumedPlates,
      ClashesIn;
  }

  lemma RaceHolds(c: P.Config, p: Plate, k: nat)
    requires Race(c, p) && k == 2
    ensures Goes(c, p, k)
  {
    RaceFacts(c.upload, p);
    assert c.upload.file[0..1] == c.upload.file;
    hide P.Apply, P.Enabled, Stepped, Counted, AtCheckpoint, OpenPlates, ImportedRows, Room, SplitOf, ResumedPlates,
      ClashesIn;
  }

  lemma RaceHoldsAgain(c: P.Config, p: Plate, k: nat)
    requires Race(c, p) && k == 8
    ensures Goes(c, p, k)
  {
    RaceFacts(c.upload, p);
    assert c.upload.file[0..1] == c.upload.file;
    assert {} + {} + {p} == {p};
    hide P.Apply, P.Enabled, Stepped, Counted, AtCheckpoint, OpenPlates, ImportedRows, Room, SplitOf, ResumedPlates,
      ClashesIn;
  }

  lemma RaceDecides(c: P.Config, p: Plate, k: nat)
    requires Race(c, p) && k == 3
    ensures Goes(c, p, k)
  {
    RaceFacts(c.upload, p);
    assert c.upload.file[0..1] == c.upload.file;
    hide P.Apply, P.Enabled, Stepped, Counted, AtCheckpoint, OpenPlates, ImportedRows, Room, SplitOf, ResumedPlates,
      ClashesIn;
  }

  lemma RaceDecidesAgain(c: P.Config, p: Plate, k: nat)
    requires Race(c, p) && k == 9
    ensures Goes(c, p, k)
  {
    RaceFacts(c.upload, p);
    assert c.upload.file[0..1] == c.upload.file;
    hide P.Apply, P.Enabled, Stepped, Counted, AtCheckpoint, OpenPlates, ImportedRows, Room, SplitOf, ResumedPlates,
      ClashesIn;
  }

  lemma RaceInserts(c: P.Config, p: Plate, k: nat)
    requires Race(c, p) && k == 7
    ensures Goes(c, p, k)
  {
    RaceFacts(c.upload, p);
    assert c.upload.file[0..1] == c.upload.file;
    hide P.Apply, P.Enabled, Stepped, Counted, AtCheckpoint, OpenPlates, ImportedRows, Room, SplitOf, ResumedPlates,
      ClashesIn;
  }

  lemma RaceRejects(c: P.Config, p: Plate, k: nat)
    requires Race(c, p) && k == 10
    ensures Goes(c, p, k)
  {
    RaceFacts(c.upload, p);
    assert c.upload.file[0..1] == c.upload.file;
    RepeatFacts(p);
    hide P.Apply, P.Enabled, Stepped, Counted, AtCheckpoint, OpenPlates, ImportedRows, Room, SplitOf, ResumedPlates,
      ClashesIn;
  }

  lemma RaceBatch(c: P.Config, p: Plate, v: View)
    requires Race(c, p) && v == View({}, {p}, c.upload.limit - 1)
    ensures P.Enabled(c, RaceState(11), P.BatchBy(2, 1, v))
    ensures P.Apply(c, RaceState(11), P.BatchBy(2, 1, v)) == RaceState(12)
  {
    RaceFacts(c.upload, p);
    assert c.upload.file[0..1] == c.upload.file;
    hide SplitOf, P.LeftAfter, P.DecisionsAfter, P.RequeuesAfter;
    assert P.NextCounts(c, RaceState(11).attempts[2], 1, v) == Counts(1, 0, 0, 1);
    hide P.NextCounts;
  }

  lemma RaceReachesCheckpoint(c: P.Config, p: Plate)
    requires Race(c, p)
    ensures AtCheckpoint(c, RaceWorld(c.upload, p, 11), 2)
  {
    RepeatFacts(p);
    hide RejectedRows, DraftOf;
  }

  lemma CountedIsWorld(c: P.Config, w: World, o: nat, next: P.State)
    requires AtCheckpoint(c, w, o)
    requires
      var e := P.BatchBy(o, w.work[o].size, w.work[o].view);
      P.Enabled(c, w.state, e) && P.Apply(c, w.state, e) == next
    ensures Counted(c, w, o) == World(next, w.listings, w.rejected,
      w.seen[o := SeenAfter(w.seen[o], w.work[o].split)], Kept(w.work, next.attempts) - {o})
  {
    hide P.Apply, P.Enabled, AllWritten, SeenAfter, Kept;
  }

  lemma RaceAfterCheckpoint(u: Upload, p: Plate)
    requires 0 < u.limit
    ensures
      var w, split := RaceWorld(u, p, 11), EMPTY_SPLIT.(repeats := [Prepared(FIRST_ROW, p)]);
      && w.state == RaceState(11) && 2 in w.seen && w.seen[2] == {} && 2 in w.work
      && w.work[2] == Writing(1, View({}, {p}, u.limit - 1), split, 0, false)
      && RaceWorld(u, p, 12) == World(RaceState(12), w.listings, w.rejected, w.seen[2 := {}],
        Kept(w.work, RaceState(12).attempts) - {2})
  {
    hide DraftOf, RaceJob;
  }

  lemma RaceCheckpoint(c: P.Config, p: Plate, k: nat)
    requires Race(c, p) && k == 11
    ensures Goes(c, p, k)
  {
    hide RaceWorld, RaceState, P.Apply, P.Enabled, SeenAfter, AtCheckpoint, Counted, Kept;
    RaceReachesCheckpoint(c, p);
    RaceAfterCheckpoint(c.upload, p);
    RaceBatch(c, p, View({}, {p}, c.upload.limit - 1));
    RepeatFacts(p);
    CountedIsWorld(c, RaceWorld(c.upload, p, 11), 2, RaceState(12));
  }

  lemma RaceGoes(c: P.Config, p: Plate, k: nat)
    requires Race(c, p) && k < 13
    ensures Goes(c, p, k)
  {
    hide Goes;
    if k in {0, 4} {
      RaceHandsBack(c, p, k);
    } else if k in {1, 6} {
      RaceLooks(c, p, k);
    } else if k == 2 {
      RaceHolds(c, p, k);
    } else if k == 8 {
      RaceHoldsAgain(c, p, k);
    } else if k == 3 {
      RaceDecides(c, p, k);
    } else if k == 5 {
      RaceClaimsAgain(c, p, k);
    } else if k == 7 {
      RaceInserts(c, p, k);
    } else if k == 9 {
      RaceDecidesAgain(c, p, k);
    } else if k == 10 {
      RaceRejects(c, p, k);
    } else if k == 11 {
      RaceCheckpoint(c, p, k);
    } else {
      RaceCompletes(c, p, k);
    }
  }

  // Overlapping attempts can count and report wrongly: a run in which the job completes with its one row
  // imported, and rejected as well, and counted as a duplicate.
  lemma OverlapMiscounts(c: P.Config, p: Plate)
    requires P.Sensible(c) && Race(c, p)
    ensures exists worlds: seq<World>, steps: seq<Step> ::
      && Run(c, [], worlds, steps) && |steps| == 13 && (forall k :: 0 <= k < 13 ==> !steps[k].Elsewhere?)
      && Done(worlds[13].state.job.csv.status) && Miscounted(c.upload, worlds[13])
  {
    var worlds := seq(14, k requires 0 <= k < 14 => RaceWorld(c.upload, p, k));
    var steps := seq(13, k requires 0 <= k < 13 => RaceStep(k));
    RaceEnds(c, p);
    hide After, Possible, RaceWorld, RaceStep, P.Initial, Miscounted;
    forall k: nat | k < 13
      ensures Possible(c, worlds[k], steps[k]) && worlds[k + 1] == After(c, worlds[k], steps[k]) &&
        !steps[k].Elsewhere?
    {
      RaceGoes(c, p, k);
    }
    assert Run(c, [], worlds, steps);
  }

  // The first row is imported and rejected, and not counted as valid.
  predicate Miscounted(u: Upload, w: World)
    requires |u.file| == 1
  {
    FIRST_ROW in ImportedRows(w.listings, u.job) && FIRST_ROW in w.rejected && w.state.job.counts.valid == 0 &&
      AcceptedCount(u, [], 1) == 1
  }

  lemma RaceEnds(c: P.Config, p: Plate)
    requires Race(c, p)
    ensures
      var first, last := RaceWorld(c.upload, p, 0), RaceWorld(c.upload, p, 13);
      && P.Initial(c, first.state) && first.listings == [] && first.rejected == map[] && first.work == map[]
      && Done(last.state.job.csv.status) && Miscounted(c.upload, last)
    ensures forall k: nat :: k < 13 ==> !RaceStep(k).Elsewhere?
  {
    RaceFacts(c.upload, p);
    hide ImportedRows, AcceptedCount;
  }
}
