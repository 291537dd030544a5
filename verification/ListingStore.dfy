/** The shared `listings` collection: what the importer, the photo stage and the dealer's
    lifecycle operations read and write, and the two unique indexes that guard it. */
module ListingStore {
  import opened Options

  // A normalized registration number.
  type Plate = string

  datatype Status = Draft | Active | Sold | Archived

  // The CSV row a listing was imported from.
  datatype Source = Source(job: nat, row: nat)

  datatype Listing = Listing(dealer: nat, source: Option<Source>, plate: Plate, status: Status,
      publishedAt: Option<nat>)

  // Drafts and active listings hold their plate and count toward the dealer's limit.
  predicate Open(l: Listing) {
    l.status.Draft? || l.status.Active?
  }

  function OpenPlates(db: seq<Listing>): set<Plate> {
    set l | l in db && Open(l) :: l.plate
  }

  function OpenCount(db: seq<Listing>, dealer: nat): nat {
    OpenAmong(db, dealer, |db|)
  }

  // Among the first n documents.
  function OpenAmong(db: seq<Listing>, dealer: nat, n: nat): nat
    requires n <= |db|
  {
    if n == 0 then 0 else OpenAmong(db, dealer, n - 1) + if db[n - 1].dealer == dealer && Open(db[n - 1]) then 1 else 0
  }

  lemma {:induction false} OpenAmongPrefix(db: seq<Listing>, more: seq<Listing>, dealer: nat, n: nat)
    requires n <= |db|
    ensures OpenAmong(db + more, dealer, n) == OpenAmong(db, dealer, n)
  {
    if n > 0 {
      OpenAmongPrefix(db, more, dealer, n - 1);
    }
  }

  function ImportedRows(db: seq<Listing>, job: nat): set<nat> {
    set l | l in db && l.source.Some? && l.source.value.job == job :: l.source.value.row
  }

  // Two documents that one of the unique indexes keeps apart.
  predicate Clash(a: Listing, b: Listing) {
    || (Open(a) && Open(b) && a.plate == b.plate)
    || (a.source.Some? && a.source == b.source)
  }

  predicate ClashesIn(db: seq<Listing>, l: Listing) {
    exists k :: 0 <= k < |db| && Clash(db[k], l)
  }

  ghost predicate IndexesHold(db: seq<Listing>) {
    forall i, j :: 0 <= i < j < |db| ==> !Clash(db[i], db[j])
  }

  // What an ordered bulk insert leaves behind: it stops at the first document an index refuses,
  // or after `stopAfter` documents when the process dies.
  function InsertOrdered(db: seq<Listing>, batch: seq<Listing>, stopAfter: nat): (r: seq<Listing>)
    decreases |batch|
  {
    if batch == [] || stopAfter == 0 || ClashesIn(db, batch[0]) then db
    else InsertOrdered(db + [batch[0]], batch[1..], stopAfter - 1)
  }

  // Whatever is inserted and wherever it stops, the indexes hold and what was stored stays.
  lemma {:induction false} InsertKeepsIndexes(db: seq<Listing>, batch: seq<Listing>, stopAfter: nat)
    requires IndexesHold(db)
    ensures IndexesHold(InsertOrdered(db, batch, stopAfter))
    ensures db <= InsertOrdered(db, batch, stopAfter)
    decreases |batch|
  {
    if batch == [] || stopAfter == 0 || ClashesIn(db, batch[0]) {
    } else {
      InsertKeepsIndexes(db + [batch[0]], batch[1..], stopAfter - 1);
    }
  }

  class Listings {
    var rows: seq<Listing>

    constructor (rows: seq<Listing>)
      ensures this.rows == rows
    {
      this.rows := rows;
    }

    // findActivelyListedRegistrations: which of the keys an open listing holds.
    method FindActivelyListed(keys: seq<Plate>) returns (held: set<Plate>)
      ensures forall p :: p in held <==> p in keys && p in OpenPlates(rows)
    {
      held := {};
      for i := 0 to |rows|
        invariant forall p :: p in held <==> p in keys && p in OpenPlates(rows[..i])
      {
        assert rows[..i + 1] == rows[..i] + [rows[i]];
        if Open(rows[i]) && rows[i].plate in keys {
          held := held + {rows[i].plate};
        }
      }
      assert rows[..|rows|] == rows;
    }

    method CountOpen(dealer: nat) returns (n: nat)
      ensures n == OpenCount(rows, dealer)
    {
      n := 0;
      for i := 0 to |rows|
        invariant n == OpenAmong(rows, dealer, i)
      {
        if rows[i].dealer == dealer && Open(rows[i]) {
          n := n + 1;
        }
      }
    }

    // findImportedRowNumbers: which of the row numbers an earlier attempt already imported.
    method FindImported(job: nat, numbers: seq<nat>) returns (found: set<nat>)
      ensures forall n :: n in found <==> n in numbers && n in ImportedRows(rows, job)
    {
      found := {};
      for i := 0 to |rows|
        invariant forall n :: n in found <==> n in numbers && n in ImportedRows(rows[..i], job)
      {
        assert rows[..i + 1] == rows[..i] + [rows[i]];
        match rows[i].source {
          case Some(s) =>
            if s.job == job && s.row in numbers { found := found + {s.row}; }
          case None =>
        }
      }
      assert rows[..|rows|] == rows;
    }

    // insertMany with ordered: true. `ok` is false when an index refused a document or the
    // process died first.
    method InsertMany(batch: seq<Listing>, stopAfter: nat) returns (ok: bool)
      modifies this
      ensures rows == InsertOrdered(old(rows), batch, stopAfter)
      ensures |rows| <= |old(rows)| + |batch| && (ok <==> |rows| == |old(rows)| + |batch|)
      ensures old(IndexesHold(rows)) ==> IndexesHold(rows)
    {
      if IndexesHold(rows) { InsertKeepsIndexes(rows, batch, stopAfter); }
      var k := 0;
      assert batch[0..] == batch;
      while k < |batch| && k < stopAfter && !ClashesIn(rows, batch[k])
        invariant 0 <= k <= |batch| && k <= stopAfter
        invariant |rows| == |old(rows)| + k
        invariant InsertOrdered(rows, batch[k..], stopAfter - k) == InsertOrdered(old(rows), batch, stopAfter)
      {
        assert batch[k..][1..] == batch[k + 1..];
        rows := rows + [batch[k]];
        k := k + 1;
      }
      ok := k == |batch|;
    }
  }
}
