/** The batched, resumable import leaves the reference importer's listings. */
module ImportRefinement {
  import opened Options
  import opened ListingStore
  import opened Import

  /* ----- The reference importer's own laws ----- */

  // No row with this plate can be accepted any more.
  predicate Blocked(u: Upload, db: seq<Listing>, p: Plate) {
    p in OpenPlates(db) || OpenCount(db, u.dealer) >= u.limit
  }

  lemma AppendPlates(u: Upload, db: seq<Listing>, ps: seq<Prepared>)
    ensures OpenPlates(db + Drafts(u, ps)) == OpenPlates(db) + PlatesOf(ps)
  {
    var all := db + Drafts(u, ps);
    forall p | p in PlatesOf(ps) ensures p in OpenPlates(all) {
      var q :| q in ps && q.plate == p;
      var i :| 0 <= i < |ps| && ps[i] == q;
      assert all[|db| + i] == DraftOf(u, q.row, q.plate);
    }
    forall p | p in OpenPlates(all) ensures p in OpenPlates(db) + PlatesOf(ps) {
      var l :| l in all && Open(l) && l.plate == p;
      var i :| 0 <= i < |all| && all[i] == l;
      if i >= |db| { assert ps[i - |db|].plate == p; }
    }
  }

  lemma {:induction false} AppendCount(u: Upload, db: seq<Listing>, ps: seq<Prepared>, n: nat)
    requires n <= |ps|
    ensures OpenAmong(db + Drafts(u, ps), u.dealer, |db| + n) == OpenCount(db, u.dealer) + n
  {
    if n == 0 {
      OpenAmongPrefix(db, Drafts(u, ps), u.dealer, |db|);
    } else {
      AppendCount(u, db, ps, n - 1);
      assert (db + Drafts(u, ps))[|db| + n - 1] == DraftOf(u, ps[n - 1].row, ps[n - 1].plate);
    }
  }

  lemma AppendDrafts(u: Upload, db: seq<Listing>, ps: seq<Prepared>)
    ensures OpenPlates(db + Drafts(u, ps)) == OpenPlates(db) + PlatesOf(ps)
    ensures OpenCount(db + Drafts(u, ps), u.dealer) == OpenCount(db, u.dealer) + |ps|
  {
    AppendPlates(u, db, ps);
    AppendCount(u, db, ps, |ps|);
  }

  lemma SimpleStep(u: Upload, db: seq<Listing>, i: nat)
    requires i < |u.file|
    ensures AcceptedAt(u, db, i) <==> u.file[i].Valid? && !Blocked(u, Simple(u, db, i), u.file[i].plate)
    ensures AcceptedAt(u, db, i) ==>
      Simple(u, db, i + 1) == Simple(u, db, i) + Drafts(u, [Prepared(FIRST_ROW + i, u.file[i].plate)])
    ensures !AcceptedAt(u, db, i) ==> Simple(u, db, i + 1) == Simple(u, db, i)
    ensures u.file[i].Valid? ==> Blocked(u, Simple(u, db, i + 1), u.file[i].plate)
    ensures forall p :: Blocked(u, Simple(u, db, i), p) ==> Blocked(u, Simple(u, db, i + 1), p)
  {
    if AcceptedAt(u, db, i) {
      AppendDrafts(u, Simple(u, db, i), [Prepared(FIRST_ROW + i, u.file[i].plate)]);
    }
  }

  // Once blocked, a plate stays blocked, so a repeated plate is never accepted.
  lemma {:induction false} BlockedStays(u: Upload, db: seq<Listing>, i: nat, j: nat)
    requires i <= j <= |u.file|
    ensures forall p :: Blocked(u, Simple(u, db, i), p) ==> Blocked(u, Simple(u, db, j), p)
    decreases j
  {
    if i < j {
      BlockedStays(u, db, i, j - 1);
      SimpleStep(u, db, j - 1);
    }
  }

  // The rows of the records from c up to i that the reference importer takes, and those it does not.
  function Accepted(u: Upload, db: seq<Listing>, c: nat, i: nat): set<nat>
    requires c <= i <= |u.file|
  {
    set j | c <= j < i && AcceptedAt(u, db, j) :: FIRST_ROW + j
  }

  function Refused(u: Upload, db: seq<Listing>, c: nat, i: nat): set<nat>
    requires c <= i <= |u.file|
  {
    set j | c <= j < i && !AcceptedAt(u, db, j) :: FIRST_ROW + j
  }

  lemma SetsStep(u: Upload, db: seq<Listing>, c: nat, i: nat)
    requires c <= i < |u.file|
    ensures Accepted(u, db, c, i + 1) == Accepted(u, db, c, i) + if AcceptedAt(u, db, i) then {FIRST_ROW + i} else {}
    ensures Refused(u, db, c, i + 1) == Refused(u, db, c, i) + if AcceptedAt(u, db, i) then {} else {FIRST_ROW + i}
  {
  }

  lemma ImportedAppend(db: seq<Listing>, l: Listing, job: nat)
    requires l.source.Some? && l.source.value.job == job
    ensures ImportedRows(db + [l], job) == ImportedRows(db, job) + {l.source.value.row}
  {
    assert l in db + [l];
    assert forall x :: x in db + [l] <==> x in db || x == l;
  }

  lemma {:induction false} ImportedBySimple(u: Upload, db: seq<Listing>, n: nat)
    requires n <= |u.file| && ImportedRows(db, u.job) == {}
    ensures ImportedRows(Simple(u, db, n), u.job) == Accepted(u, db, 0, n)
  {
    hide OpenAmong, OpenCount, OpenPlates;
    if n > 0 {
      ImportedBySimple(u, db, n - 1);
      SetsStep(u, db, 0, n - 1);
      if AcceptedAt(u, db, n - 1) {
        ImportedAppend(Simple(u, db, n - 1), DraftOf(u, FIRST_ROW + n - 1, u.file[n - 1].plate), u.job);
      }
      hide ImportedRows, Accepted;
    }
  }

  /* ----- One batch against the reference importer ----- */

  function Later(a: nat, b: nat): nat { if a < b then b else a }

  // What the batch sees when an earlier attempt stopped m records into the file: its rows, every
  // open plate and possibly more, but no plate that could still be accepted.
  ghost predicate RightView(u: Upload, now: seq<Listing>, v: View) {
    && v.imported == ImportedRows(now, u.job)
    && v.room == Room(u, now)
    && OpenPlates(now) <= v.taken
    && (forall p :: p in v.taken ==> Blocked(u, now, p))
  }

  // The batch that starts at record c, cut off before record i.
  function Cut(u: Upload, c: nat, i: nat, v: View): Split
    requires c <= i <= |u.file|
  {
    SplitOf(u.file[c..i], FIRST_ROW + c, v)
  }

  function VerdictAt(u: Upload, c: nat, i: nat, v: View): Verdict
    requires c <= i < |u.file|
  {
    Judge(u.file[i], FIRST_ROW + i, v, Cut(u, c, i, v))
  }

  lemma CutStep(u: Upload, c: nat, i: nat, v: View)
    requires c <= i < |u.file|
    ensures !VerdictAt(u, c, i, v).Malformed? ==> u.file[i].Valid?
    ensures Cut(u, c, i + 1, v) == Extend(Cut(u, c, i, v), VerdictAt(u, c, i, v), FIRST_ROW + i, u.file[i])
  {
    assert u.file[c..i + 1][..i - c] == u.file[c..i];
  }

  // Every record of the cut is counted once, and no more are inserted than there is room for.
  lemma CutCounts(u: Upload, c: nat, i: nat, v: View)
    requires c <= i <= |u.file|
    ensures
      var s := Cut(u, c, i, v);
      |s.insert| + |s.over| + |s.resumed| + |s.repeats| + |s.invalid| == i - c && |s.insert| <= v.room
  {
    SplitCountsEveryRecord(u.file[c..i], FIRST_ROW + c, v);
  }

  // The part of the refinement that concerns what happened before record i.
  ghost predicate Agrees(u: Upload, db: seq<Listing>, m: nat, c: nat, i: nat, s: Split)
    requires m <= |u.file| && c <= i <= |u.file|
  {
    && Simple(u, db, Later(m, i)) == Simple(u, db, m) + Drafts(u, s.insert)
    && RowsOf(s.insert) + RowsOf(s.resumed) == Accepted(u, db, c, i)
    && RejectedRows(s) == Refused(u, db, c, i)
    && AcceptedCount(u, db, i) == AcceptedCount(u, db, c) + |s.insert| + |s.resumed|
  }

  // Every plate the batch has put on a list is blocked by now.
  ghost predicate UsedAreBlocked(u: Upload, db: seq<Listing>, i: nat, s: Split)
    requires i <= |u.file|
  {
    forall p :: p in PlatesOf(s.insert) + PlatesOf(s.over) + PlatesOf(s.repeats) ==> Blocked(u, Simple(u, db, i), p)
  }

  // A record an earlier attempt went past: it is resumed if that attempt imported it.
  lemma VerdictBefore(u: Upload, db: seq<Listing>, m: nat, i: nat, v: View, s: Split)
    requires i < m <= |u.file|
    requires ImportedRows(db, u.job) == {} && RightView(u, Simple(u, db, m), v)
    requires |s.insert| <= v.room
    ensures AcceptedAt(u, db, i) <==> Judge(u.file[i], FIRST_ROW + i, v, s).Resume?
    ensures !Judge(u.file[i], FIRST_ROW + i, v, s).Insert?
  {
    ResumedIfAccepted(u, db, m, i);
    RefusedStaysBlocked(u, db, m, i);
    hide AcceptedAt, OpenCount, ImportedRows;
  }

  lemma ResumedIfAccepted(u: Upload, db: seq<Listing>, m: nat, i: nat)
    requires i < m <= |u.file| && ImportedRows(db, u.job) == {}
    ensures AcceptedAt(u, db, i) <==> FIRST_ROW + i in ImportedRows(Simple(u, db, m), u.job)
    ensures AcceptedAt(u, db, i) ==> u.file[i].Valid?
  {
    ImportedBySimple(u, db, m);
    hide ImportedRows, Simple;
  }

  lemma RefusedStaysBlocked(u: Upload, db: seq<Listing>, m: nat, i: nat)
    requires i < m <= |u.file|
    ensures u.file[i].Valid? ==> Blocked(u, Simple(u, db, m), u.file[i].plate)
  {
    SimpleStep(u, db, i);
    BlockedStays(u, db, i + 1, m);
    hide Blocked, Simple, AcceptedAt;
  }

  // A record no attempt has reached.
  lemma VerdictBehind(u: Upload, db: seq<Listing>, m: nat, i: nat, v: View, s: Split)
    requires m <= i < |u.file|
    requires ImportedRows(db, u.job) == {} && RightView(u, Simple(u, db, m), v)
    requires Simple(u, db, i) == Simple(u, db, m) + Drafts(u, s.insert)
    requires UsedAreBlocked(u, db, i, s) && |s.insert| <= v.room
    ensures AcceptedAt(u, db, i) <==> Judge(u.file[i], FIRST_ROW + i, v, s).Insert?
    ensures !Judge(u.file[i], FIRST_ROW + i, v, s).Resume?
  {
    ImportedBySimple(u, db, m);
    assert FIRST_ROW + i !in v.imported;
    SimpleStep(u, db, i);
    BlockedStays(u, db, m, i);
    AppendDrafts(u, Simple(u, db, m), s.insert);
  }

  lemma VerdictAgrees(u: Upload, db: seq<Listing>, m: nat, c: nat, i: nat, v: View)
    requires c <= m <= |u.file| && c <= i < |u.file|
    requires ImportedRows(db, u.job) == {} && RightView(u, Simple(u, db, m), v)
    requires Agrees(u, db, m, c, i, Cut(u, c, i, v))
    requires UsedAreBlocked(u, db, i, Cut(u, c, i, v))
    requires |Cut(u, c, i, v).insert| <= v.room
    ensures AcceptedAt(u, db, i) <==> VerdictAt(u, c, i, v).Insert? || VerdictAt(u, c, i, v).Resume?
    ensures VerdictAt(u, c, i, v).Insert? ==> m <= i
    ensures VerdictAt(u, c, i, v).Resume? ==> i < m
  {
    hide AcceptedAt, Simple, ImportedRows, RightView, UsedAreBlocked, Cut, Judge, Accepted, Refused, AcceptedCount,
      RowsOf, RejectedRows, Drafts;
    if i < m {
      VerdictBefore(u, db, m, i, v, Cut(u, c, i, v));
    } else {
      VerdictBehind(u, db, m, i, v, Cut(u, c, i, v));
    }
  }

  lemma RowsOfAppend(ps: seq<Prepared>, p: Prepared)
    ensures RowsOf(ps + [p]) == RowsOf(ps) + {p.row}
    ensures PlatesOf(ps + [p]) == PlatesOf(ps) + {p.plate}
  {
    assert forall q :: q in ps + [p] <==> q in ps || q == p;
  }

  lemma ExtendRows(s: Split, v: Verdict, row: nat, r: Record)
    requires !v.Malformed? ==> r.Valid?
    ensures
      var t := Extend(s, v, row, r);
      && RowsOf(t.insert) + RowsOf(t.resumed) ==
        RowsOf(s.insert) + RowsOf(s.resumed) + (if v.Insert? || v.Resume? then {row} else {})
      && RejectedRows(t) == RejectedRows(s) + (if v.Insert? || v.Resume? then {} else {row})
      && |t.insert| + |t.resumed| == |s.insert| + |s.resumed| + (if v.Insert? || v.Resume? then 1 else 0)
  {
    match v
    case Malformed => assert forall x :: x in s.invalid + [row] <==> x in s.invalid || x == row;
    case Resume => RowsOfAppend(s.resumed, Prepared(row, r.plate));
    case Repeat => RowsOfAppend(s.repeats, Prepared(row, r.plate));
    case Insert => RowsOfAppend(s.insert, Prepared(row, r.plate));
    case OverLimit => RowsOfAppend(s.over, Prepared(row, r.plate));
  }

  lemma UsedStep(s: Split, w: Verdict, row: nat, r: Record)
    requires !w.Malformed? ==> r.Valid?
    ensures
      var t := Extend(s, w, row, r);
      PlatesOf(t.insert) + PlatesOf(t.over) + PlatesOf(t.repeats)
        <= PlatesOf(s.insert) + PlatesOf(s.over) + PlatesOf(s.repeats) + (if r.Valid? then {r.plate} else {})
  {
    if r.Valid? {
      RowsOfAppend(s.repeats, Prepared(row, r.plate));
      RowsOfAppend(s.insert, Prepared(row, r.plate));
      RowsOfAppend(s.over, Prepared(row, r.plate));
    }
  }

  lemma DraftsStep(u: Upload, now: seq<Listing>, ps: seq<Prepared>, p: Prepared)
    ensures now + Drafts(u, ps + [p]) == now + Drafts(u, ps) + Drafts(u, [p])
  {
    assert Drafts(u, ps + [p]) == Drafts(u, ps) + Drafts(u, [p]);
  }

  // The store part of the next lemma, with the reference importer's stores named.
  lemma StoreStep(u: Upload, now: seq<Listing>, here: seq<Listing>, next: seq<Listing>, s: Split, w: Verdict, row: nat,
      r: Record)
    requires !w.Malformed? ==> r.Valid?
    requires here == now + Drafts(u, s.insert)
    requires next == if w.Insert? then here + Drafts(u, [Prepared(row, r.plate)]) else here
    ensures next == now + Drafts(u, Extend(s, w, row, r).insert)
  {
    if w.Insert? { DraftsStep(u, now, s.insert, Prepared(row, r.plate)); }
  }

  // One more record, whose verdict agrees, keeps the batch in agreement.
  lemma AgreesStep(u: Upload, db: seq<Listing>, m: nat, c: nat, i: nat, s: Split, w: Verdict)
    requires c <= m <= |u.file| && c <= i < |u.file|
    requires !w.Malformed? ==> u.file[i].Valid?
    requires Agrees(u, db, m, c, i, s)
    requires AcceptedAt(u, db, i) <==> w.Insert? || w.Resume?
    requires w.Insert? ==> m <= i
    requires w.Resume? ==> i < m
    ensures Agrees(u, db, m, c, i + 1, Extend(s, w, FIRST_ROW + i, u.file[i]))
  {
    hide Extend, AcceptedAt, Accepted, Refused, Drafts, RowsOf, RejectedRows;
    SimpleStep(u, db, i);
    SetsStep(u, db, c, i);
    ExtendRows(s, w, FIRST_ROW + i, u.file[i]);
    StoreStep(u, Simple(u, db, m), Simple(u, db, Later(m, i)), Simple(u, db, Later(m, i + 1)), s, w, FIRST_ROW + i,
      u.file[i]);
  }

  lemma UsedStaysBlocked(u: Upload, db: seq<Listing>, i: nat, s: Split, w: Verdict)
    requires i < |u.file| && (!w.Malformed? ==> u.file[i].Valid?)
    requires UsedAreBlocked(u, db, i, s)
    ensures UsedAreBlocked(u, db, i + 1, Extend(s, w, FIRST_ROW + i, u.file[i]))
  {
    SimpleStep(u, db, i);
    UsedStep(s, w, FIRST_ROW + i, u.file[i]);
  }

  // Record by record, the batch inserts, resumes and rejects exactly what the reference importer
  // accepts and refuses, wherever an earlier attempt stopped.
  lemma {:induction false} BatchAgrees(u: Upload, db: seq<Listing>, m: nat, c: nat, i: nat, v: View)
    requires c <= m <= |u.file| && c <= i <= |u.file|
    requires ImportedRows(db, u.job) == {} && RightView(u, Simple(u, db, m), v)
    ensures Agrees(u, db, m, c, i, Cut(u, c, i, v))
    ensures UsedAreBlocked(u, db, i, Cut(u, c, i, v))
    decreases i
  {
    hide *;
    if c == i {
      NothingYet(u, db, m, c, v);
    } else {
      BatchAgrees(u, db, m, c, i - 1, v);
      CutCounts(u, c, i - 1, v);
      VerdictAgrees(u, db, m, c, i - 1, v);
      CutStep(u, c, i - 1, v);
      AgreesStep(u, db, m, c, i - 1, Cut(u, c, i - 1, v), VerdictAt(u, c, i - 1, v));
      UsedStaysBlocked(u, db, i - 1, Cut(u, c, i - 1, v), VerdictAt(u, c, i - 1, v));
    }
  }

  lemma NothingYet(u: Upload, db: seq<Listing>, m: nat, c: nat, v: View)
    requires c <= m <= |u.file|
    ensures Agrees(u, db, m, c, c, Cut(u, c, c, v)) && UsedAreBlocked(u, db, c, Cut(u, c, c, v))
  {
    assert Cut(u, c, c, v) == EMPTY_SPLIT;
    assert Simple(u, db, m) + Drafts(u, []) == Simple(u, db, m);
  }

  /* ----- Inserts that stop part-way ----- */

  // What cutting a batch one record later inserts.
  lemma InsertGrows(u: Upload, db: seq<Listing>, m: nat, c: nat, i: nat, v: View)
    requires c <= m <= |u.file| && c <= i < |u.file|
    requires ImportedRows(db, u.job) == {} && RightView(u, Simple(u, db, m), v)
    ensures
      var s, t := Cut(u, c, i, v).insert, Cut(u, c, i + 1, v).insert;
      t == s || (m <= i && AcceptedAt(u, db, i) && t == s + [Prepared(FIRST_ROW + i, u.file[i].plate)])
  {
    BatchAgrees(u, db, m, c, i, v);
    CutCounts(u, c, i, v);
    VerdictAgrees(u, db, m, c, i, v);
    CutStep(u, c, i, v);
  }

  lemma InsertAgrees(u: Upload, db: seq<Listing>, m: nat, c: nat, i: nat, v: View)
    requires c <= m <= |u.file| && c <= i <= |u.file|
    requires ImportedRows(db, u.job) == {} && RightView(u, Simple(u, db, m), v)
    ensures Simple(u, db, Later(m, i)) == Simple(u, db, m) + Drafts(u, Cut(u, c, i, v).insert)
    ensures i == c ==> Cut(u, c, i, v).insert == []
  {
    BatchAgrees(u, db, m, c, i, v);
  }

  lemma CutInserts(u: Upload, c: nat, i: nat, v: View)
    requires c <= i < |u.file|
    ensures Cut(u, c, c, v).insert == []
    ensures
      var s, t := Cut(u, c, i, v).insert, Cut(u, c, i + 1, v).insert;
      t == s || (|t| == |s| + 1 && t[..|s|] == s)
  {
    CutStep(u, c, i, v);
  }

  // Where in the batch the k-th insert is decided.
  lemma {:induction false} InsertIndex(u: Upload, c: nat, e: nat, v: View, inserts: seq<Prepared>,
      k: nat) returns (i: nat)
    requires c <= e <= |u.file| && inserts == Cut(u, c, e, v).insert && k < |inserts|
    ensures c <= i < e
    ensures Cut(u, c, i, v).insert == inserts[..k] && Cut(u, c, i + 1, v).insert == inserts[..k + 1]
    decreases e
  {
    hide *;
    if c < e {
      CutInserts(u, c, e - 1, v);
      var before := Cut(u, c, e - 1, v).insert;
      if k < |before| {
        i := InsertIndex(u, c, e - 1, v, before, k);
        assert inserts[..k] == before[..k] && inserts[..k + 1] == before[..k + 1];
      } else {
        i := e - 1;
        assert inserts[..k] == before && inserts[..k + 1] == inserts;
      }
    } else {
      NothingCut(u, c, v);
      assert false;
    }
  }

  lemma NothingCut(u: Upload, c: nat, v: View)
    requires c <= |u.file|
    ensures Cut(u, c, c, v) == EMPTY_SPLIT && EMPTY_SPLIT.insert == []
  {
  }

  // Any prefix of a batch's inserts is itself a point of the reference importer's run, and the
  // next insert is the record the reference importer accepts there.
  lemma PrefixIsSimple(u: Upload, db: seq<Listing>, m: nat, c: nat, e: nat, v: View, inserts: seq<Prepared>,
      k: nat) returns (i: nat)
    requires c <= m <= |u.file| && c <= e <= |u.file|
    requires ImportedRows(db, u.job) == {} && RightView(u, Simple(u, db, m), v)
    requires inserts == Cut(u, c, e, v).insert && k <= |inserts|
    ensures m <= i <= Later(m, e)
    ensures Simple(u, db, i) == Simple(u, db, m) + Drafts(u, inserts[..k])
    ensures k < |inserts| ==> i < e && AcceptedAt(u, db, i) && inserts[k] == Prepared(FIRST_ROW + i, u.file[i].plate)
  {
    if k == |inserts| {
      i := Later(m, e);
      InsertAgrees(u, db, m, c, e, v);
      assert inserts[..k] == inserts;
    } else {
      i := InsertIndex(u, c, e, v, inserts, k);
      InsertGrows(u, db, m, c, i, v);
      InsertAgrees(u, db, m, c, i, v);
      assert inserts[..k + 1][k] == inserts[k];
    }
  }

  // The reference importer's next listing never clashes with what is stored.
  lemma NoClash(u: Upload, db: seq<Listing>, i: nat)
    requires i < |u.file| && ImportedRows(db, u.job) == {} && AcceptedAt(u, db, i)
    ensures !ClashesIn(Simple(u, db, i), DraftOf(u, FIRST_ROW + i, u.file[i].plate))
  {
    var here := Simple(u, db, i);
    ImportedBySimple(u, db, i);
    var l := DraftOf(u, FIRST_ROW + i, u.file[i].plate);
    forall k | 0 <= k < |here| ensures !Clash(here[k], l) {
      assert here[k].source == l.source ==> FIRST_ROW + i in ImportedRows(here, u.job);
      if Open(here[k]) {
        assert here[k].plate in OpenPlates(here);
      }
    }
  }

  // So the ordered insert of a batch, cut off after k documents, is the reference importer at work.
  lemma {:induction false} InsertFollows(u: Upload, db: seq<Listing>, m: nat, c: nat, e: nat, v: View,
      inserts: seq<Prepared>, j: nat, k: nat)
    requires c <= m <= |u.file| && c <= e <= |u.file|
    requires ImportedRows(db, u.job) == {} && RightView(u, Simple(u, db, m), v)
    requires inserts == Cut(u, c, e, v).insert && j <= k <= |inserts|
    ensures InsertOrdered(Simple(u, db, m) + Drafts(u, inserts[..j]), Drafts(u, inserts[j..]), k - j) ==
      Simple(u, db, m) + Drafts(u, inserts[..k])
    decreases k - j
  {
    hide Simple, SplitOf, RightView, Cut, AcceptedAt, Drafts, ClashesIn, ImportedRows;
    if j < k {
      var i := PrefixIsSimple(u, db, m, c, e, v, inserts, j);
      NoClash(u, db, i);
      InsertFollows(u, db, m, c, e, v, inserts, j + 1, k);
      InsertOne(u, Simple(u, db, m), inserts, j, k);
    }
  }

  lemma InsertOne(u: Upload, now: seq<Listing>, inserts: seq<Prepared>, j: nat, k: nat)
    requires j < k <= |inserts|
    requires !ClashesIn(now + Drafts(u, inserts[..j]), DraftOf(u, inserts[j].row, inserts[j].plate))
    ensures InsertOrdered(now + Drafts(u, inserts[..j]), Drafts(u, inserts[j..]), k - j)
         == InsertOrdered(now + Drafts(u, inserts[..j + 1]), Drafts(u, inserts[j + 1..]), k - j - 1)
  {
    var batch := Drafts(u, inserts[j..]);
    assert batch[1..] == Drafts(u, inserts[j + 1..]);
    assert inserts[..j + 1] == inserts[..j] + [inserts[j]];
    DraftsStep(u, now, inserts[..j], inserts[j]);
    assert Drafts(u, [inserts[j]]) == [batch[0]];
  }

  lemma {:induction false} InsertOnceKeys(store: map<nat, Reason>, records: seq<Rejection>, landed: set<nat>)
    ensures InsertOnce(store, records, landed).Keys == store.Keys + set r | r in records && r.row in landed :: r.row
    ensures forall k :: k in store ==> InsertOnce(store, records, landed)[k] == store[k]
  {
    if records != [] {
      var n := |records| - 1;
      InsertOnceKeys(store, records[..n], landed);
      assert forall r :: r in records <==> r in records[..n] || r == records[n];
    }
  }

  lemma RejectionRows(s: Split)
    ensures (set r | r in Rejections(s) :: r.row) == RejectedRows(s)
  {
    var all := Rejections(s);
    forall x | x in RejectedRows(s) ensures exists r :: r in all && r.row == x {
      if x in RowsOf(s.over) {
        var i :| 0 <= i < |s.over| && s.over[i].row == x;
        assert all[i].row == x;
      } else if x in s.invalid {
        var i :| 0 <= i < |s.invalid| && s.invalid[i] == x;
        assert all[|s.over| + i].row == x;
      } else {
        var i :| 0 <= i < |s.repeats| && s.repeats[i].row == x;
        assert all[|s.over| + |s.invalid| + i].row == x;
      }
    }
  }

  /* ----- Whole histories ----- */

  // The state every history leaves: the listings are the reference importer's after some m records,
  // at least as many as the checkpoint covers; a rejected row is one the reference importer refuses,
  // and all refused rows before the checkpoint are recorded.
  ghost predicate Progress(u: Upload, db: seq<Listing>, st: Saved, m: nat) {
    && st.counts.processed <= m <= |u.file|
    && st.listings == Simple(u, db, m)
    && Refused(u, db, 0, st.counts.processed) <= st.rejected.Keys <= Refused(u, db, 0, |u.file|)
    && st.counts.valid == AcceptedCount(u, db, st.counts.processed)
    && st.counts.valid + st.counts.rejected + st.counts.duplicate == st.counts.processed
    && (st.finished ==> st.counts.processed == |u.file|)
  }

  ghost predicate SeenAreBlocked(u: Upload, now: seq<Listing>, seen: set<Plate>) {
    forall p :: p in seen ==> Blocked(u, now, p)
  }

  lemma ResumedAreBlocked(u: Upload, db: seq<Listing>, m: nat, i: nat)
    requires i < |u.file| && m <= |u.file| && ImportedRows(db, u.job) == {}
    requires FIRST_ROW + i in ImportedRows(Simple(u, db, m), u.job)
    ensures u.file[i].Valid? && Blocked(u, Simple(u, db, m), u.file[i].plate)
  {
    ImportedBySimple(u, db, m);
    SimpleStep(u, db, i);
    BlockedStays(u, db, i + 1, m);
  }

  lemma ViewIsRight(u: Upload, db: seq<Listing>, m: nat, c: nat, e: nat, seen: set<Plate>)
    requires m <= |u.file| && c <= e <= |u.file| && ImportedRows(db, u.job) == {}
    requires SeenAreBlocked(u, Simple(u, db, m), seen)
    ensures RightView(u, Simple(u, db, m), ViewOf(u, u.file[c..e], FIRST_ROW + c, seen, Simple(u, db, m)))
  {
    hide Simple;
    var now, rows := Simple(u, db, m), u.file[c..e];
    var imported := ImportedRows(now, u.job);
    assert forall p :: p in OpenPlates(now) ==> Blocked(u, now, p);
    hide ImportedRows, Blocked, OpenPlates;
    forall p | p in ResumedPlates(rows, FIRST_ROW + c, imported) ensures Blocked(u, now, p) {
      var k :| 0 <= k < |rows| && rows[k].Valid? && FIRST_ROW + c + k in imported && rows[k].plate == p;
      ResumedAreBlocked(u, db, m, c + k);
    }
  }

  lemma {:induction false} InsertCapped(db: seq<Listing>, batch: seq<Listing>, k: nat)
    requires |batch| <= k
    ensures InsertOrdered(db, batch, k) == InsertOrdered(db, batch, |batch|)
    decreases |batch|
  {
    if batch != [] && !ClashesIn(db, batch[0]) {
      InsertCapped(db + [batch[0]], batch[1..], k - 1);
    }
  }

  lemma ListingsWritten(u: Upload, db: seq<Listing>, m: nat, c: nat, e: nat, v: View, inserted: nat) returns (m': nat)
    requires c <= m <= |u.file| && c <= e <= |u.file|
    requires ImportedRows(db, u.job) == {} && RightView(u, Simple(u, db, m), v)
    ensures m <= m' <= Later(m, e)
    ensures InsertOrdered(Simple(u, db, m), Drafts(u, Cut(u, c, e, v).insert), inserted) == Simple(u, db, m')
    ensures inserted >= |Cut(u, c, e, v).insert| ==>
      m' == Later(m, e) && |Simple(u, db, m')| == |Simple(u, db, m)| + |Cut(u, c, e, v).insert|
  {
    var inserts := Cut(u, c, e, v).insert;
    var now, k := Simple(u, db, m), if inserted < |inserts| then inserted else |inserts|;
    InsertFollows(u, db, m, c, e, v, inserts, 0, k);
    assert now + Drafts(u, inserts[..0]) == now && inserts[0..] == inserts;
    if inserted >= |inserts| {
      InsertCapped(now, Drafts(u, inserts), inserted);
      m' := Later(m, e);
      InsertAgrees(u, db, m, c, e, v);
      assert inserts[..k] == inserts;
    } else {
      m' := PrefixIsSimple(u, db, m, c, e, v, inserts, k);
    }
  }

  lemma RejectionsWritten(u: Upload, db: seq<Listing>, m: nat, c: nat, e: nat, v: View, store: map<nat, Reason>,
      landed: set<nat>)
    requires c <= m <= |u.file| && c <= e <= |u.file|
    requires ImportedRows(db, u.job) == {} && RightView(u, Simple(u, db, m), v)
    ensures
      var keys := InsertOnce(store, Rejections(Cut(u, c, e, v)), landed).Keys;
      && store.Keys <= keys <= store.Keys + Refused(u, db, c, e)
      && (RejectedRows(Cut(u, c, e, v)) <= landed ==> keys == store.Keys + Refused(u, db, c, e))
  {
    var s := Cut(u, c, e, v);
    BatchAgrees(u, db, m, c, e, v);
    InsertOnceKeys(store, Rejections(s), landed);
    RejectionRows(s);
    var rows := set r | r in Rejections(s) && r.row in landed :: r.row;
    assert rows == RejectedRows(s) * landed;
  }

  lemma BatchTallies(u: Upload, db: seq<Listing>, m: nat, c: nat, e: nat, v: View)
    requires c <= m <= |u.file| && c <= e <= |u.file|
    requires ImportedRows(db, u.job) == {} && RightView(u, Simple(u, db, m), v)
    ensures
      var s := Cut(u, c, e, v);
      && AcceptedCount(u, db, e) == AcceptedCount(u, db, c) + |s.insert| + |s.resumed|
      && |s.insert| + |s.over| + |s.resumed| + |s.repeats| + |s.invalid| == e - c
  {
    BatchAgrees(u, db, m, c, e, v);
    CutCounts(u, c, e, v);
  }

  lemma SeenStayBlocked(u: Upload, db: seq<Listing>, m: nat, c: nat, e: nat, v: View, seen: set<Plate>)
    requires c <= m <= |u.file| && c <= e <= |u.file|
    requires ImportedRows(db, u.job) == {} && RightView(u, Simple(u, db, m), v)
    requires SeenAreBlocked(u, Simple(u, db, m), seen)
    ensures SeenAreBlocked(u, Simple(u, db, Later(m, e)), SeenAfter(seen, Cut(u, c, e, v)))
  {
    hide Simple, Blocked, ImportedRows, SplitOf, Accepted, Refused, RowsOf, RejectedRows;
    BatchAgrees(u, db, m, c, e, v);
    BlockedStays(u, db, m, Later(m, e));
    BlockedStays(u, db, e, Later(m, e));
    ResumedPlatesBlocked(u, db, m, c, e, v);
    hide PlatesOf, Cut;
  }

  lemma ResumedPlatesBlocked(u: Upload, db: seq<Listing>, m: nat, c: nat, e: nat, v: View)
    requires m <= |u.file| && c <= e <= |u.file| && ImportedRows(db, u.job) == {} &&
      v.imported == ImportedRows(Simple(u, db, m), u.job)
    ensures forall p :: p in PlatesOf(Cut(u, c, e, v).resumed) ==> Blocked(u, Simple(u, db, m), p)
  {
    hide Simple, Blocked, ImportedRows, SplitOf;
    ResumedAreImported(u.file[c..e], FIRST_ROW + c, v);
    forall p | p in PlatesOf(Cut(u, c, e, v).resumed) ensures Blocked(u, Simple(u, db, m), p) {
      var q :| q in Cut(u, c, e, v).resumed && q.plate == p;
      ResumedAreBlocked(u, db, m, q.row - FIRST_ROW);
    }
  }

  lemma {:induction false} ResumedAreImported(rows: seq<Record>, first: nat, v: View)
    ensures forall q :: q in SplitOf(rows, first, v).resumed ==>
      first <= q.row < first + |rows| && q.row in v.imported && rows[q.row - first].Valid? &&
        rows[q.row - first].plate == q.plate
  {
    if rows != [] {
      ResumedAreImported(rows[..|rows| - 1], first, v);
    }
  }

  // What the lemmas above say about one batch, free of how the batch is computed.
  ghost predicate BatchFacts(u: Upload, db: seq<Listing>, st: Saved, e: nat, seen: set<Plate>, s: Split, w: Saved,
      m: nat, m': nat, full: bool)
    requires st.counts.processed <= m <= |u.file| && st.counts.processed <= e <= |u.file|
  {
    var c := st.counts.processed;
    && m <= m' <= |u.file|
    && w.listings == Simple(u, db, m')
    && st.rejected.Keys <= w.rejected.Keys <= st.rejected.Keys + Refused(u, db, c, e)
    && AcceptedCount(u, db, e) == AcceptedCount(u, db, c) + |s.insert| + |s.resumed|
    && |s.insert| + |s.over| + |s.resumed| + |s.repeats| + |s.invalid| == e - c
    && (full ==>
      && e <= m'
      && w.rejected.Keys == st.rejected.Keys + Refused(u, db, c, e)
      && |w.listings| == |st.listings| + |s.insert|
      && SeenAreBlocked(u, w.listings, SeenAfter(seen, s)))
  }

  lemma BatchHasFacts(u: Upload, db: seq<Listing>, st: Saved, m: nat, e: nat, seen: set<Plate>, s: Split,
      inserted: nat, landed: set<nat>) returns (m': nat)
    requires ImportedRows(db, u.job) == {} && m <= |u.file| && st.listings == Simple(u, db, m)
    requires st.counts.processed <= m && st.counts.processed <= e <= |u.file| && SeenAreBlocked(u, st.listings, seen)
    requires s == BatchSplit(u, st.listings, u.file[st.counts.processed..e], FIRST_ROW + st.counts.processed, seen)
    ensures BatchFacts(u, db, st, e, seen, s, Written(u, st, s, inserted, landed), m, m',
      inserted >= |s.insert| && RejectedRows(s) <= landed)
  {
    var c := st.counts.processed;
    var v := ViewOf(u, u.file[c..e], FIRST_ROW + c, seen, st.listings);
    ViewIsRight(u, db, m, c, e, seen);
    m' := ListingsWritten(u, db, m, c, e, v, inserted);
    var w := Written(u, st, s, inserted, landed);
    assert st.rejected.Keys <= w.rejected.Keys <= st.rejected.Keys + Refused(u, db, c, e)
        && (RejectedRows(s) <= landed ==> w.rejected.Keys == st.rejected.Keys + Refused(u, db, c, e)) by {
      RejectionsWritten(u, db, m, c, e, v, st.rejected, landed);
    }
    assert AcceptedCount(u, db, e) == AcceptedCount(u, db, c) + |s.insert| + |s.resumed|
        && |s.insert| + |s.over| + |s.resumed| + |s.repeats| + |s.invalid| == e - c by {
      BatchTallies(u, db, m, c, e, v);
    }
    assert SeenAreBlocked(u, Simple(u, db, Later(m, e)), SeenAfter(seen, s)) by {
      SeenStayBlocked(u, db, m, c, e, v, seen);
    }
  }

  // A batch that dies anywhere keeps Progress, and so does one that commits.
  lemma BatchKeepsProgress(u: Upload, db: seq<Listing>, st: Saved, m: nat, e: nat, seen: set<Plate>, s: Split,
      w: Saved, m': nat, full: bool)
    requires Progress(u, db, st, m) && !st.finished
    requires st.counts.processed <= e <= |u.file|
    requires BatchFacts(u, db, st, e, seen, s, w, m, m', full)
    requires w.counts == st.counts && !w.finished
    ensures Progress(u, db, w, m')
    ensures full ==> Progress(u, db, w.(counts := Tally(st.counts, e, s)), m')
  {
    assert Refused(u, db, 0, e) == Refused(u, db, 0, st.counts.processed) + Refused(u, db, st.counts.processed, e);
  }

  ghost predicate StandsWell(u: Upload, db: seq<Listing>, st: Saved, m: nat, crash: Option<Crash>, a: Standing,
      m': nat) {
    && m <= m' && Progress(u, db, a.st, m')
    && (a.more ==>
      && st.counts.processed < a.st.counts.processed
      && !a.st.finished
      && SeenAreBlocked(u, a.st.listings, a.seen)
      && (crash.None? ==> a.crash.None?))
    && (!a.more ==> st.counts.processed == a.st.counts.processed && (crash.None? ==> a.st.finished))
  }

  lemma CommitStandsWell(u: Upload, db: seq<Listing>, st: Saved, m: nat, e: nat, seen: set<Plate>, s: Split,
      crash: Option<Crash>) returns (m': nat)
    requires ImportedRows(db, u.job) == {} && Progress(u, db, st, m) && !st.finished
    requires st.counts.processed < e <= |u.file| && SeenAreBlocked(u, st.listings, seen)
    requires s == BatchSplit(u, st.listings, u.file[st.counts.processed..e], FIRST_ROW + st.counts.processed, seen)
    ensures StandsWell(u, db, st, m, crash, Commit(u, st, seen, e, s, crash), m')
  {
    m' := BatchHasFacts(u, db, st, m, e, seen, s, |s.insert|, RejectedRows(s));
    BatchKeepsProgress(u, db, st, m, e, seen, s, Written(u, st, s, |s.insert|, RejectedRows(s)), m', true);
  }

  lemma CrashStandsWell(u: Upload, db: seq<Listing>, st: Saved, m: nat, e: nat, seen: set<Plate>, s: Split,
      k: Crash) returns (m': nat)
    requires ImportedRows(db, u.job) == {} && Progress(u, db, st, m) && !st.finished
    requires st.counts.processed < e <= |u.file| && SeenAreBlocked(u, st.listings, seen)
    requires s == BatchSplit(u, st.listings, u.file[st.counts.processed..e], FIRST_ROW + st.counts.processed, seen)
    ensures StandsWell(u, db, st, m, Some(k),
      Standing(Written(u, st, s, k.inserted, k.landed), seen, Some(k), false), m')
  {
    m' := BatchHasFacts(u, db, st, m, e, seen, s, k.inserted, k.landed);
    BatchKeepsProgress(u, db, st, m, e, seen, s, Written(u, st, s, k.inserted, k.landed), m',
      k.inserted >= |s.insert| && RejectedRows(s) <= k.landed);
  }

  lemma BatchStandsWell(u: Upload, db: seq<Listing>, st: Saved, m: nat, e: nat, seen: set<Plate>, s: Split,
      crash: Option<Crash>) returns (m': nat)
    requires ImportedRows(db, u.job) == {} && Progress(u, db, st, m) && !st.finished
    requires st.counts.processed < e <= |u.file| && SeenAreBlocked(u, st.listings, seen)
    requires s == BatchSplit(u, st.listings, u.file[st.counts.processed..e], FIRST_ROW + st.counts.processed, seen)
    ensures StandsWell(u, db, st, m, crash, Batch(u, st, seen, e, s, crash), m')
  {
    match crash
    case None =>
      m' := CommitStandsWell(u, db, st, m, e, seen, s, None);
    case Some(k) =>
      if k.batch == 0 {
        m' := CrashStandsWell(u, db, st, m, e, seen, s, k);
      } else {
        m' := CommitStandsWell(u, db, st, m, e, seen, s, Some(k.(batch := k.batch - 1)));
      }
  }

  lemma StepStandsWell(u: Upload, db: seq<Listing>, st: Saved, m: nat, seen: set<Plate>, size: nat,
      crash: Option<Crash>) returns (m': nat)
    requires ImportedRows(db, u.job) == {} && Progress(u, db, st, m) && !st.finished
    requires 0 < size && SeenAreBlocked(u, st.listings, seen)
    ensures StandsWell(u, db, st, m, crash, Step(u, st, seen, size, crash), m')
  {
    hide SeenAreBlocked, BatchSplit, Batch, Refused, AcceptedCount, Simple, ImportedRows;
    var c := st.counts.processed;
    if c == |u.file| {
      m' := m;
    } else {
      var e := BatchEnd(u, c, size);
      m' := BatchStandsWell(u, db, st, m, e, seen, BatchSplit(u, st.listings, u.file[c..e], FIRST_ROW + c, seen),
        crash);
    }
  }

  // An attempt, however it ends, keeps Progress; one that does not die completes the job.
  lemma {:induction false} AttemptKeepsProgress(u: Upload, db: seq<Listing>, st: Saved, m: nat, seen: set<Plate>,
      size: nat, crash: Option<Crash>) returns (m': nat)
    requires ImportedRows(db, u.job) == {} && Progress(u, db, st, m) && !st.finished
    requires 0 < size && SeenAreBlocked(u, st.listings, seen)
    ensures m <= m' && Progress(u, db, Attempt(u, st, seen, size, crash), m')
    ensures st.counts.processed <= Attempt(u, st, seen, size, crash).counts.processed
    ensures crash.None? ==> Attempt(u, st, seen, size, crash).finished
    decreases |u.file| - st.counts.processed
  {
    m' := StepStandsWell(u, db, st, m, seen, size, crash);
    var a := Step(u, st, seen, size, crash);
    if a.more {
      m' := AttemptKeepsProgress(u, db, a.st, m', a.seen, size, a.crash);
    }
  }

  lemma {:induction false} AttemptsKeepProgress(u: Upload, db: seq<Listing>, st: Saved, m: nat,
      plans: seq<Plan>) returns (m': nat)
    requires ImportedRows(db, u.job) == {} && Progress(u, db, st, m)
    requires forall p :: p in plans ==> 0 < p.size
    ensures m <= m' && Progress(u, db, Attempts(u, st, plans), m')
    ensures (exists p :: p in plans && p.crash.None?) ==> Attempts(u, st, plans).finished
    decreases |plans|
  {
    if plans == [] || st.finished {
      m' := m;
    } else {
      m' := AttemptKeepsProgress(u, db, st, m, {}, plans[0].size, plans[0].crash);
      m' := AttemptsKeepProgress(u, db, Attempt(u, st, {}, plans[0].size, plans[0].crash), m', plans[1..]);
      assert forall p :: p in plans ==> p == plans[0] || p in plans[1..];
    }
  }

  /* ----- Main theorems ----- */

  // Every row the checkpoint covers is a listing or a rejected row, never both.
  lemma OneStorePerRow(u: Upload, db: seq<Listing>, st: Saved, m: nat)
    requires ImportedRows(db, u.job) == {} && Progress(u, db, st, m)
    ensures forall row :: FIRST_ROW <= row < FIRST_ROW + st.counts.processed ==>
      (row in ImportedRows(st.listings, u.job) <==> row !in st.rejected)
    ensures ImportedRows(st.listings, u.job) !! st.rejected.Keys
  {
    ImportedBySimple(u, db, m);
    hide Simple, ImportedRows, AcceptedAt, AcceptedCount;
    forall row | FIRST_ROW <= row < FIRST_ROW + st.counts.processed
      ensures row in ImportedRows(st.listings, u.job) <==> row !in st.rejected
    {
      if AcceptedAt(u, db, row - FIRST_ROW) {
        assert row in ImportedRows(st.listings, u.job);
      } else {
        assert row in Refused(u, db, 0, st.counts.processed);
      }
    }
  }

  // Crash-resume refinement. Whatever attempts were made, with whatever batch sizes and crash
  // points: every row the checkpoint covers is in exactly one of the two stores, no rejected row is
  // a listing, and once the job completes the listings are exactly the reference importer's (same
  // documents, same order), the rejected rows are exactly the others, and the counters say so.
  lemma CrashResumeRefinement(u: Upload, db: seq<Listing>, plans: seq<Plan>, st: Saved)
    requires ImportedRows(db, u.job) == {}
    requires forall p :: p in plans ==> 0 < p.size
    requires st == Attempts(u, Fresh(db), plans)
    ensures forall row :: FIRST_ROW <= row < FIRST_ROW + st.counts.processed ==>
      (row in ImportedRows(st.listings, u.job) <==> row !in st.rejected)
    ensures ImportedRows(st.listings, u.job) !! st.rejected.Keys
    ensures st.counts.valid + st.counts.rejected + st.counts.duplicate == st.counts.processed
    ensures st.finished ==>
      && st.listings == Simple(u, db, |u.file|)
      && st.rejected.Keys == Refused(u, db, 0, |u.file|)
      && st.counts.processed == |u.file|
      && st.counts.valid == AcceptedCount(u, db, |u.file|)
    ensures (exists p :: p in plans && p.crash.None?) ==> st.finished
  {
    hide Attempts;
    FreshProgress(u, db);
    var m := AttemptsKeepProgress(u, db, Fresh(db), 0, plans);
    OneStorePerRow(u, db, st, m);
  }

  lemma FreshProgress(u: Upload, db: seq<Listing>)
    ensures Progress(u, db, Fresh(db), 0)
  {
    assert Refused(u, db, 0, 0) == {};
  }

  // What the last row of a batch adds to the rejected ones.
  lemma LastRejected(rows: seq<Record>, first: nat, v: View)
    requires rows != []
    ensures
      var n := |rows| - 1;
      var s := SplitOf(rows[..n], first, v);
      var w := Judge(rows[n], first + n, v, s);
      RejectedRows(SplitOf(rows, first, v)) == RejectedRows(s) + if w.Insert? || w.Resume? then {} else {first + n}
  {
    hide RejectedRows, RowsOf, Extend;
    var n := |rows| - 1;
    var s := SplitOf(rows[..n], first, v);
    ExtendRows(s, Judge(rows[n], first + n, v, s), first + n, rows[n]);
  }

  lemma {:induction false} RejectedAreInBatch(rows: seq<Record>, first: nat, v: View)
    ensures forall row :: row in RejectedRows(SplitOf(rows, first, v)) ==> first <= row < first + |rows|
    decreases |rows|
  {
    if rows == [] {
      assert SplitOf(rows, first, v) == EMPTY_SPLIT && RejectedRows(EMPTY_SPLIT) == {};
    } else {
      hide RejectedRows, SplitOf, Judge;
      RejectedAreInBatch(rows[..|rows| - 1], first, v);
      LastRejected(rows, first, v);
    }
  }

  // When a batch rejects a valid row: the lookup of imported rows did not show it, and its plate is held
  // or used up by an earlier row of the batch, or no room is left when its turn comes.
  predicate RejectsValid(rows: seq<Record>, first: nat, v: View, k: nat)
    requires k < |rows| && rows[k].Valid?
  {
    var s := SplitOf(rows[..k], first, v);
    && first + k !in v.imported
    && (rows[k].plate in v.taken + PlatesOf(s.insert) + PlatesOf(s.over) + PlatesOf(s.repeats) || |s.insert| >= v.room)
  }

  lemma {:induction false} RowRejectedIff(rows: seq<Record>, first: nat, v: View, k: nat)
    requires k < |rows| && rows[k].Valid?
    ensures first + k in RejectedRows(SplitOf(rows, first, v)) <==> RejectsValid(rows, first, v, k)
    decreases |rows|
  {
    hide RejectedRows, SplitOf, PlatesOf;
    var n := |rows| - 1;
    LastRejected(rows, first, v);
    if k < n {
      RowRejectedIff(rows[..n], first, v, k);
      assert rows[..n][..k] == rows[..k];
    } else {
      RejectedAreInBatch(rows[..n], first, v);
      assert rows[..n] == rows[..k];
    }
  }

  // What a batch sees whose three lookups find three stores: the imported rows first, then the held
  // plates, then the dealer's open listings.
  function ViewAtMoments(u: Upload, rows: seq<Record>, first: nat, seen: set<Plate>, db1: seq<Listing>,
      db2: seq<Listing>, db3: seq<Listing>): View {
    var imported := ImportedRows(db1, u.job);
    View(imported, seen + ResumedPlates(rows, first, imported) + OpenPlates(db2), Room(u, db3))
  }

  // Of a row that another attempt imports meanwhile: nothing happens to it if it was there at the first
  // lookup. If it came between the first two, it is rejected. If it came after the second, it is
  // rejected if and only if its plate was held or used up anyway, or no room is left at the count.
  lemma ImportedRowRejectedIff(u: Upload, rows: seq<Record>, first: nat, seen: set<Plate>, db1: seq<Listing>,
      db2: seq<Listing>, db3: seq<Listing>, k: nat)
    requires k < |rows| && rows[k].Valid? && db1 <= db2 <= db3
    requires first + k in ImportedRows(db2, u.job) ==> rows[k].plate in OpenPlates(db2)
    ensures
      var v := ViewAtMoments(u, rows, first, seen, db1, db2, db3);
      var s := SplitOf(rows[..k], first, v);
      first + k in RejectedRows(SplitOf(rows, first, v)) <==>
        if first + k in ImportedRows(db2, u.job) then first + k !in ImportedRows(db1, u.job)
        else
          || rows[k].plate in v.taken + PlatesOf(s.insert) + PlatesOf(s.over) + PlatesOf(s.repeats)
          || |s.insert| >= Room(u, db3)
  {
    var v := ViewAtMoments(u, rows, first, seen, db1, db2, db3);
    RowRejectedIff(rows, first, v, k);
    assert ImportedRows(db1, u.job) <= ImportedRows(db2, u.job);
  }

  // Why attempts must not overlap: an attempt that looks for imported rows before another one imports a
  // row, and for held plates after, rejects the row that was imported.
  lemma OverlapRejectsImportedRow(u: Upload, db: seq<Listing>, i: nat)
    requires i < |u.file| && ImportedRows(db, u.job) == {} && AcceptedAt(u, db, i)
    ensures
      var before, after := Simple(u, db, i), Simple(u, db, i + 1);
      var stale := ViewAtMoments(u, [u.file[i]], FIRST_ROW + i, {}, before, after, after);
      FIRST_ROW + i in ImportedRows(after, u.job) &&
        FIRST_ROW + i in RejectedRows(SplitOf([u.file[i]], FIRST_ROW + i, stale))
  {
    var before, after, r := Simple(u, db, i), Simple(u, db, i + 1), u.file[i];
    RowImportedHere(u, db, i);
    StaleRowRejected(u, [r], FIRST_ROW + i, before, after);
  }

  lemma StaleRowRejected(u: Upload, rows: seq<Record>, row: nat, before: seq<Listing>, after: seq<Listing>)
    requires |rows| == 1 && rows[0].Valid? && before <= after && rows[0].plate in OpenPlates(after)
    requires row !in ImportedRows(before, u.job) && row in ImportedRows(after, u.job)
    ensures row in RejectedRows(SplitOf(rows, row, ViewAtMoments(u, rows, row, {}, before, after, after)))
  {
    hide *;
    ImportedRowRejectedIff(u, rows, row, {}, before, after, after, 0);
    assert row + 0 == row;
  }

  // So does one that looks for both before the import but counts after it, when the import took the
  // dealer's last place.
  lemma OverlapRejectsForTheLimit(u: Upload, db: seq<Listing>, i: nat)
    requires i < |u.file| && ImportedRows(db, u.job) == {} && AcceptedAt(u, db, i)
    requires OpenCount(Simple(u, db, i), u.dealer) + 1 == u.limit
    ensures
      var before, after := Simple(u, db, i), Simple(u, db, i + 1);
      var stale := ViewAtMoments(u, [u.file[i]], FIRST_ROW + i, {}, before, before, after);
      FIRST_ROW + i in ImportedRows(after, u.job) &&
        FIRST_ROW + i in RejectedRows(SplitOf([u.file[i]], FIRST_ROW + i, stale))
  {
    var before, after, r := Simple(u, db, i), Simple(u, db, i + 1), u.file[i];
    RowImportedHere(u, db, i);
    AppendCount(u, before, [Prepared(FIRST_ROW + i, r.plate)], 1);
    AppendDrafts(u, before, [Prepared(FIRST_ROW + i, r.plate)]);
    assert Room(u, after) == 0;
    assert [r][0] == r;
    ImportedRowRejectedIff(u, [r], FIRST_ROW + i, {}, before, before, after, 0);
  }

  lemma RowImportedHere(u: Upload, db: seq<Listing>, i: nat)
    requires i < |u.file| && ImportedRows(db, u.job) == {} && AcceptedAt(u, db, i)
    ensures
      var before, after, r := Simple(u, db, i), Simple(u, db, i + 1), u.file[i];
      && FIRST_ROW + i !in ImportedRows(before, u.job) && FIRST_ROW + i in ImportedRows(after, u.job)
      && r.Valid? && r.plate in OpenPlates(after) && before <= after
      && after == before + Drafts(u, [Prepared(FIRST_ROW + i, r.plate)])
  {
    var before, r := Simple(u, db, i), u.file[i];
    ImportedBySimple(u, db, i);
    ImportedAppend(before, DraftOf(u, FIRST_ROW + i, r.plate), u.job);
    assert Drafts(u, [Prepared(FIRST_ROW + i, r.plate)]) == [DraftOf(u, FIRST_ROW + i, r.plate)];
    assert DraftOf(u, FIRST_ROW + i, r.plate) in Simple(u, db, i + 1);
  }

  // Batch size and crash history make no difference to what ends up imported.
  lemma HistoriesAgree(u: Upload, db: seq<Listing>, plans: seq<Plan>, plans': seq<Plan>, st: Saved, st': Saved)
    requires ImportedRows(db, u.job) == {}
    requires forall p :: p in plans || p in plans' ==> 0 < p.size
    requires st == Attempts(u, Fresh(db), plans) && st' == Attempts(u, Fresh(db), plans')
    requires st.finished && st'.finished
    ensures st.listings == st'.listings && st.rejected.Keys == st'.rejected.Keys && st.counts.valid == st'.counts.valid
  {
    CrashResumeRefinement(u, db, plans, st);
    CrashResumeRefinement(u, db, plans', st');
  }
}
