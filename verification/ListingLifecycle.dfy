/** The life of every listing under dealers, bulk actions, admins and imports that all act at once. */
module ListingLifecycle {
  import opened Options
  import opened ListingStore

  // The documents of the collection by ID.
  type Stock = map<nat, Listing>

  // What a status request decided after reading its listing, before its conditional write.
  datatype Request = Request(id: nat, expected: Status, next: Status, publishedAt: Option<nat>)

  predicate Allowed(from: Status, to: Status) {
    match from
    case Draft => to.Active? || to.Archived?
    case Active => to.Sold? || to.Archived?
    case Sold => to.Active? || to.Archived?
    case Archived => false
  }

  // Another open listing holds this plate.
  predicate Taken(stock: Stock, id: nat, plate: Plate) {
    exists other :: other in stock && other != id && Open(stock[other]) && stock[other].plate == plate
  }

  // One of the two unique indexes refuses this document under this ID.
  predicate Refused(stock: Stock, id: nat, l: Listing) {
    exists other :: other in stock && other != id && Clash(stock[other], l)
  }

  // At most one open listing per plate and at most one listing per CSV row.
  ghost predicate Unique(stock: Stock) {
    forall a, b :: a in stock && b in stock && a != b ==> !Clash(stock[a], stock[b])
  }

  // A write of one document: the indexes let it through or nothing changes.
  function Write(stock: Stock, id: nat, l: Listing): Stock {
    if Refused(stock, id, l) then stock else stock[id := l]
  }

  // A write that keeps the CSV row of a document, or has none, is only ever refused for its plate.
  lemma RefusedForItsPlate(stock: Stock, id: nat, l: Listing)
    requires Unique(stock) && (l.source.None? || (id in stock && l.source == stock[id].source))
    ensures Refused(stock, id, l) <==> Open(l) && Taken(stock, id, l.plate)
  {
    if Open(l) && Taken(stock, id, l.plate) {
      var other :| other in stock && other != id && Open(stock[other]) && stock[other].plate == l.plate;
      assert Clash(stock[other], l);
    }
    if Refused(stock, id, l) {
      var other :| other in stock && other != id && Clash(stock[other], l);
      if id in stock {
        assert !Clash(stock[other], stock[id]);
      }
    }
  }

  function Decide(l: Listing, id: nat, next: Status, now: nat): Request {
    Request(id, l.status, next, if next.Active? && l.publishedAt.None? then Some(now) else None)
  }

  // The document a status request leaves, if its listing still has the status it read.
  function Transitioned(l: Listing, r: Request): Listing {
    l.(status := r.next, publishedAt := if r.publishedAt.Some? then r.publishedAt else l.publishedAt)
  }

  predicate Matches(stock: Stock, r: Request) {
    r.id in stock && stock[r.id].status == r.expected
  }

  function Commit(stock: Stock, r: Request): Stock {
    if Matches(stock, r) then Write(stock, r.id, Transitioned(stock[r.id], r)) else stock
  }

  /* ----- Bulk actions ----- */

  datatype Bulk = Publish(now: nat) | MarkSold | Archive | DeleteArchived

  predicate Eligible(l: Listing, action: Bulk) {
    match action
    case Publish(_) => l.status.Draft?
    case MarkSold => l.status.Active?
    case Archive => !l.status.Archived?
    case DeleteArchived => l.status.Archived?
  }

  function Acted(l: Listing, action: Bulk): Listing {
    match action
    case Publish(now) => l.(status := Active, publishedAt := if l.publishedAt.Some? then l.publishedAt else Some(now))
    case MarkSold => l.(status := Sold)
    case Archive => l.(status := Archived)
    case DeleteArchived => l
  }

  // One document of a bulk action. It goes in without asking the indexes.
  function ActOn(stock: Stock, id: nat, action: Bulk): Stock {
    if id !in stock || !Eligible(stock[id], action) then stock
    else if action.DeleteArchived? then stock - {id}
    else stock[id := Acted(stock[id], action)]
  }

  function ActOnAll(stock: Stock, ids: seq<nat>, action: Bulk): Stock
    decreases |ids|
  {
    if ids == [] then stock else ActOn(ActOnAll(stock, ids[..|ids| - 1], action), ids[|ids| - 1], action)
  }

  function EligibleCount(stock: Stock, ids: seq<nat>, action: Bulk): nat
    decreases |ids|
  {
    if ids == [] then 0
    else
      var id := ids[|ids| - 1];
      EligibleCount(stock, ids[..|ids| - 1], action) + if id in stock && Eligible(stock[id], action) then 1 else 0
  }

  // A bulk action touches exactly the listings in its scope that it applies to.
  lemma {:induction false} BulkIsPointwise(stock: Stock, ids: seq<nat>, action: Bulk)
    ensures forall id :: id in ActOnAll(stock, ids, action) <==>
      id in stock && !(action.DeleteArchived? && id in ids && Eligible(stock[id], action))
    ensures forall id :: id in ActOnAll(stock, ids, action) ==>
      ActOnAll(stock, ids, action)[id] == if id in ids && Eligible(stock[id], action) then Acted(stock[id], action)
        else stock[id]
    decreases |ids|
  {
    if ids != [] {
      var n := |ids| - 1;
      BulkIsPointwise(stock, ids[..n], action);
      assert forall id :: id in ids <==> id in ids[..n] || id == ids[n];
    }
  }

  // Publishing any set of drafts needs no uniqueness check: it changes neither which listings are
  // open (so not the dealer's count either) nor their plates. The other bulk actions open none.
  lemma BulkKeepsUnique(stock: Stock, ids: seq<nat>, action: Bulk)
    requires Unique(stock)
    ensures Unique(ActOnAll(stock, ids, action)) && ActOnAll(stock, ids, action).Keys <= stock.Keys
    ensures forall id :: id in ActOnAll(stock, ids, action) && Open(ActOnAll(stock, ids, action)[id]) ==>
      Open(stock[id])
    ensures action.Publish? ==> forall id :: id in stock && Open(stock[id]) ==>
      id in ActOnAll(stock, ids, action) && Open(ActOnAll(stock, ids, action)[id])
  {
    BulkIsPointwise(stock, ids, action);
    var after := ActOnAll(stock, ids, action);
    forall a, b | a in after && b in after && a != b ensures !Clash(after[a], after[b]) {
      assert !Clash(stock[a], stock[b]);
    }
  }

  // The drafts and active listings of a dealer.
  function OpenOf(stock: Stock, dealer: nat): set<nat> {
    set id | id in stock && stock[id].dealer == dealer && Open(stock[id])
  }

  // A draft, or a listing published at once.
  function NewListing(dealer: nat, plate: Plate, publish: bool, now: nat): Listing {
    Listing(dealer, None, plate, if publish then Active else Draft, if publish then Some(now) else None)
  }

  datatype Creation = Created | QuotaExceeded | Conflict

  /* ----- The collection ----- */

  class ListingCollection {
    var stock: Stock

    constructor ()
      ensures stock == map[]
    {
      stock := map[];
    }

    // Inserts one listing under a fresh ID, unless its dealer has reached the limit or its plate is
    // taken; a dealer at the limit is told about that first.
    method CreateListing(id: nat, dealer: nat, plate: Plate, publish: bool, now: nat, limit: nat) returns (r: Creation)
      requires Unique(stock) && id !in stock
      modifies this
      ensures Unique(stock)
      ensures r.QuotaExceeded? <==> |OpenOf(old(stock), dealer)| >= limit
      ensures r.Created? <==> |OpenOf(old(stock), dealer)| < limit && !Taken(old(stock), id, plate)
      ensures stock == if r.Created? then old(stock)[id := NewListing(dealer, plate, publish, now)] else old(stock)
      ensures |OpenOf(stock, dealer)| <= limit || stock == old(stock)
    {
      if |OpenOf(stock, dealer)| >= limit { return QuotaExceeded; }
      if Taken(stock, id, plate) { return Conflict; }
      var l := NewListing(dealer, plate, publish, now);
      RefusedForItsPlate(stock, id, l);
      WriteKeepsUnique(stock, id, l);
      assert OpenOf(stock[id := l], dealer) == OpenOf(stock, dealer) + {id};
      stock := stock[id := l];
      return Created;
    }

    // The conditional write of a status change: applied only to the status that was read.
    method TransitionStatus(r: Request) returns (changed: bool)
      requires Unique(stock)
      modifies this
      ensures Unique(stock)
      ensures stock == Commit(old(stock), r)
      ensures changed <==>
        Matches(old(stock), r) &&
        !(Open(Transitioned(old(stock)[r.id], r)) && Taken(old(stock), r.id, old(stock)[r.id].plate))
    {
      if !Matches(stock, r) { return false; }
      var l := Transitioned(stock[r.id], r);
      WriteKeepsUnique(stock, r.id, l);
      RefusedForItsPlate(stock, r.id, l);
      changed := !Refused(stock, r.id, l);
      if changed {
        stock := stock[r.id := l];
      }
    }

    // A bulk action goes through its scope document by document.
    method ApplyBulkAction(ids: seq<nat>, action: Bulk) returns (updated: nat)
      requires Unique(stock)
      requires forall i, j :: 0 <= i < j < |ids| ==> ids[i] != ids[j]
      modifies this
      ensures Unique(stock)
      ensures stock == ActOnAll(old(stock), ids, action)
      ensures updated == EligibleCount(old(stock), ids, action)
    {
      updated := 0;
      for k := 0 to |ids|
        invariant stock == ActOnAll(old(stock), ids[..k], action)
        invariant updated == EligibleCount(old(stock), ids[..k], action)
      {
        assert ids[..k + 1][..k] == ids[..k];
        BulkIsPointwise(old(stock), ids[..k], action);
        assert ids[k] !in ids[..k];
        if ids[k] in stock && Eligible(stock[ids[k]], action) {
          stock := if action.DeleteArchived? then stock - {ids[k]} else stock[ids[k] := Acted(stock[ids[k]], action)];
          updated := updated + 1;
        }
      }
      assert ids[..|ids|] == ids;
      BulkKeepsUnique(old(stock), ids, action);
    }
  }

  lemma WriteKeepsUnique(stock: Stock, id: nat, l: Listing)
    requires Unique(stock)
    ensures Unique(Write(stock, id, l))
  {
  }

  /* ----- Everything at once ----- */

  // used: every ID a listing ever had. requests: status requests that have read and not yet written.
  datatype World = World(stock: Stock, used: set<nat>, requests: set<Request>)

  // A dropped request is one whose check of the plate failed, or whose backend died.
  datatype Event =
    | Create(id: nat, dealer: nat, plate: Plate, publishedAt: Option<nat>)
    | Import(id: nat, dealer: nat, source: Source, plate: Plate)
    | Read(id: nat, next: Status, now: nat)
    | Drop(request: Request)
    | CommitRequest(request: Request)
    | BulkStep(id: nat, action: Bulk)
    | AdminArchive(id: nat)
    | ChangePlate(id: nat, plate: Plate)
    | Delete(id: nat)

  function Inserted(w: World, id: nat, l: Listing): World {
    if id in w.used then w else w.(stock := Write(w.stock, id, l), used := w.used + {id})
  }

  function Apply(w: World, e: Event): World {
    match e
    case Create(id, dealer, plate, publishedAt) =>
      Inserted(w, id, Listing(dealer, None, plate, if publishedAt.Some? then Active else Draft, publishedAt))
    case Import(id, dealer, source, plate) => Inserted(w, id, Listing(dealer, Some(source), plate, Draft, None))
    case Read(id, next, now) =>
      if id in w.stock && Allowed(w.stock[id].status, next)
        then w.(requests := w.requests + {Decide(w.stock[id], id, next, now)}) else w
    case Drop(r) => w.(requests := w.requests - {r})
    case CommitRequest(r) =>
      if r in w.requests then w.(stock := Commit(w.stock, r), requests := w.requests - {r}) else w
    case BulkStep(id, action) => w.(stock := ActOn(w.stock, id, action))
    case AdminArchive(id) => if id in w.stock then w.(stock := w.stock[id := w.stock[id].(status := Archived)]) else w
    case ChangePlate(id, plate) =>
      if id in w.stock then w.(stock := Write(w.stock, id, w.stock[id].(plate := plate))) else w
    case Delete(id) => w.(stock := w.stock - {id})
  }

  function Run(w: World, events: seq<Event>): World
    decreases |events|
  {
    if events == [] then w else Apply(Run(w, events[..|events| - 1]), events[|events| - 1])
  }

  predicate Dated(l: Listing) {
    && (l.status.Active? || l.status.Sold? ==> l.publishedAt.Some?)
    && (l.status.Draft? ==> l.publishedAt.None?)
  }

  // A request sets a publication date exactly when it is going to publish a draft.
  predicate Sensible(r: Request) {
    && Allowed(r.expected, r.next)
    && (r.publishedAt.Some? <==> r.expected.Draft? && r.next.Active?)
  }

  ghost predicate Inv(w: World) {
    && w.stock.Keys <= w.used
    && Unique(w.stock)
    && (forall id :: id in w.stock ==> Dated(w.stock[id]))
    && forall r :: r in w.requests ==> Sensible(r)
  }

  lemma StepKeepsUnique(w: World, e: Event)
    requires Unique(w.stock)
    ensures Unique(Apply(w, e).stock)
  {
    match e
    case Create(id, dealer, plate, publishedAt) =>
      WriteKeepsUnique(w.stock, id,
        Listing(dealer, None, plate, if publishedAt.Some? then Active else Draft, publishedAt));
    case Import(id, dealer, source, plate) =>
      WriteKeepsUnique(w.stock, id, Listing(dealer, Some(source), plate, Draft, None));
    case CommitRequest(r) =>
      if Matches(w.stock, r) { WriteKeepsUnique(w.stock, r.id, Transitioned(w.stock[r.id], r)); }
    case ChangePlate(id, plate) =>
      if id in w.stock { WriteKeepsUnique(w.stock, id, w.stock[id].(plate := plate)); }
    case BulkStep(id, action) => ActKeepsUnique(w.stock, id, action);
    case _ =>
  }

  lemma ActKeepsUnique(stock: Stock, id: nat, action: Bulk)
    requires Unique(stock)
    ensures Unique(ActOn(stock, id, action))
  {
    assert [id][..0] == [];
    assert ActOnAll(stock, [id], action) == ActOn(stock, id, action);
    BulkKeepsUnique(stock, [id], action);
  }

  lemma StepKeepsInv(w: World, e: Event)
    requires Inv(w)
    ensures Inv(Apply(w, e))
  {
    StepKeepsUnique(w, e);
    hide Unique, Clash, Refused;
  }

  // In every interleaving of dealers, admins, bulk actions and imports: at most one open listing per
  // plate and one listing per CSV row, active and sold listings have a publication date and drafts
  // have none.
  lemma {:induction false} RunKeepsInv(w: World, events: seq<Event>)
    requires Inv(w)
    ensures Inv(Run(w, events))
    decreases |events|
  {
    if events != [] {
      RunKeepsInv(w, events[..|events| - 1]);
      StepKeepsInv(Run(w, events[..|events| - 1]), events[|events| - 1]);
    }
  }

  // What may become of a listing: its dealer and CSV row never change, its first publication date
  // is kept, an archived listing stays archived, and nothing becomes a draft again.
  predicate Later(a: Listing, b: Listing) {
    && a.dealer == b.dealer && a.source == b.source
    && (a.publishedAt.Some? ==> b.publishedAt == a.publishedAt)
    && (a.status.Archived? ==> b.status.Archived? && b.publishedAt == a.publishedAt)
    && (b.status.Draft? ==> a.status.Draft?)
  }

  // Every write moves a listing along the table of allowed transitions or leaves its status, even
  // the ones that do not look at the table; and a listing that is gone does not come back.
  lemma StepFollowsTable(w: World, e: Event, id: nat)
    requires Inv(w) && id in w.used
    ensures id in Apply(w, e).stock ==> id in w.stock
    ensures id in Apply(w, e).stock ==>
      var before, after := w.stock[id], Apply(w, e).stock[id];
      (after.status == before.status || Allowed(before.status, after.status)) && Later(before, after)
  {
  }

  lemma UsedGrows(w: World, e: Event)
    ensures w.used <= Apply(w, e).used
  {
  }

  lemma {:induction false} RunFollowsTable(w: World, events: seq<Event>, id: nat)
    requires Inv(w) && id in w.used
    ensures id in Run(w, events).used
    ensures id in Run(w, events).stock ==> id in w.stock && Later(w.stock[id], Run(w, events).stock[id])
    decreases |events|
  {
    if events != [] {
      var before := Run(w, events[..|events| - 1]);
      RunFollowsTable(w, events[..|events| - 1], id);
      RunKeepsInv(w, events[..|events| - 1]);
      StepFollowsTable(before, events[|events| - 1], id);
      UsedGrows(before, events[|events| - 1]);
    }
  }

  lemma {:induction false} RunSplits(w: World, first: seq<Event>, rest: seq<Event>)
    ensures Run(w, first + rest) == Run(Run(w, first), rest)
    decreases |rest|
  {
    var n := |rest| - 1;
    if rest == [] {
      assert first + rest == first;
    } else {
      RunSplits(w, first, rest[..n]);
      assert (first + rest)[..|first| + n] == first + rest[..n];
    }
  }

  const EMPTY := World(map[], {}, {})

  // From an empty collection on, between any two moments of any history.
  lemma HistoryOfOneListing(first: seq<Event>, rest: seq<Event>, id: nat)
    requires id in Run(EMPTY, first).stock && id in Run(EMPTY, first + rest).stock
    ensures Later(Run(EMPTY, first).stock[id], Run(EMPTY, first + rest).stock[id])
    ensures Inv(Run(EMPTY, first)) && Inv(Run(EMPTY, first + rest))
  {
    RunKeepsInv(EMPTY, first);
    RunKeepsInv(EMPTY, first + rest);
    RunSplits(EMPTY, first, rest);
    RunFollowsTable(Run(EMPTY, first), rest, id);
  }

  // Of any number of requests that read a listing as a draft, at most one takes effect, however late
  // the others write.
  lemma DraftLeavesOnce(w: World, won: Request, rest: seq<Event>, late: Request)
    requires Inv(w) && won in w.requests && won.expected.Draft? && Matches(w.stock, won)
    requires late.id == won.id && late.expected.Draft?
    ensures Apply(w, CommitRequest(won)).stock[won.id].status == won.next
    ensures !Matches(Run(Apply(w, CommitRequest(won)), rest).stock, late)
  {
    var after := Apply(w, CommitRequest(won));
    StepKeepsInv(w, CommitRequest(won));
    RefusedForItsPlate(w.stock, won.id, Transitioned(w.stock[won.id], won));
    assert won.id in after.used;
    RunFollowsTable(after, rest, won.id);
  }

  // A sold listing whose plate has been taken meanwhile cannot be reactivated, even if the check
  // before the write saw the plate free.
  lemma TakenPlateStaysTaken(w: World, r: Request)
    requires Inv(w) && r in w.requests && r.next.Active? && Matches(w.stock, r)
    ensures Apply(w, CommitRequest(r)).stock[r.id].status.Active? <==> !Taken(w.stock, r.id, w.stock[r.id].plate)
  {
    RefusedForItsPlate(w.stock, r.id, Transitioned(w.stock[r.id], r));
  }
}
