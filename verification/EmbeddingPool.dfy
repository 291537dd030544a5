/** The pool that computes embeddings for a batch of rows before the ordered insert. */
module EmbeddingPool {
  import opened Options

  type Vector = seq<real>

  datatype Enriched<R> = Enriched(row: R, embedding: Option<Vector>)

  // One of the pool's concurrent loops: at its loop test, waiting for an embedding, or returned.
  datatype Worker = Testing | Waiting(index: nat) | Returned

  function Weight(w: Worker): nat {
    match w
    case Testing => 1
    case Waiting(_) => 2
    case Returned => 0
  }

  function TotalWeight(ws: seq<Worker>): nat {
    if ws == [] then 0 else TotalWeight(ws[..|ws| - 1]) + Weight(ws[|ws| - 1])
  }

  lemma {:induction false} WeightAfterUpdate(ws: seq<Worker>, k: nat, w: Worker)
    requires k < |ws|
    ensures TotalWeight(ws[k := w]) == TotalWeight(ws) - Weight(ws[k]) + Weight(w)
  {
    var n := |ws| - 1;
    if k < n {
      WeightAfterUpdate(ws[..n], k, w);
      assert ws[k := w][..n] == ws[..n][k := w];
    } else {
      assert ws[k := w][..n] == ws[..n];
    }
  }

  // Who answers for row i: not handed out yet, handed to exactly one loop, or filled in.
  ghost predicate RowOk<R>(rows: seq<R>, embed: R -> Option<Vector>, i: nat, next: nat, workers: seq<Worker>,
      filled: seq<Option<Enriched<R>>>)
    requires i < |rows| == |filled|
  {
    && (next <= i ==> filled[i].None?)
    && (filled[i].Some? ==> filled[i].value.row == rows[i] && filled[i].value.embedding in {None, embed(rows[i])})
    && (i < next && filled[i].None? ==> Waiting(i) in workers)
  }

  // persistValidRows, up to the insert. At every turn any loop that has not returned may be the one
  // to continue, and any embedding may fail. The loop below terminates whatever the order; every row
  // is embedded exactly once and comes out at its own place, with its own embedding or without one.
  method EnrichRows<R>(rows: seq<R>, embed: R -> Option<Vector>) returns (enriched: seq<Enriched<R>>,
      calls: multiset<nat>)
    ensures |enriched| == |rows|
    ensures forall i :: 0 <= i < |rows| ==>
      enriched[i].row == rows[i] && enriched[i].embedding in {None, embed(rows[i])}
    ensures forall i: nat :: calls[i] == if i < |rows| then 1 else 0
  {
    var size := if |rows| < 8 then |rows| else 8;
    var workers := seq(size, _ => Testing);
    var filled: seq<Option<Enriched<R>>> := seq(|rows|, _ => None);
    var next: nat := 0;
    calls := multiset{};
    while exists w :: 0 <= w < |workers| && !workers[w].Returned?
      invariant |workers| == size && |filled| == |rows| && next <= |rows|
      invariant forall i :: 0 <= i < |rows| ==> RowOk(rows, embed, i, next, workers, filled)
      invariant forall w :: 0 <= w < |workers| ==>
        (workers[w].Waiting? ==> workers[w].index < next) && (workers[w].Returned? ==> next == |rows|)
      invariant forall i: nat :: calls[i] == if i < next then 1 else 0
      decreases 2 * (|rows| - next) + TotalWeight(workers)
    {
      var w :| 0 <= w < |workers| && !workers[w].Returned?;
      ghost var workers0, filled0, next0 := workers, filled, next;
      match workers[w] {
        case Testing =>
          if next < |rows| {
            WeightAfterUpdate(workers, w, Waiting(next));
            workers := workers[w := Waiting(next)];
            calls := calls + multiset{next};
            assert workers[w] == Waiting(next);
            next := next + 1;
          } else {
            WeightAfterUpdate(workers, w, Returned);
            workers := workers[w := Returned];
          }
        case Waiting(index) =>
          var fails := *;
          filled := filled[index := Some(Enriched(rows[index], if fails then None else embed(rows[index])))];
          WeightAfterUpdate(workers, w, Testing);
          workers := workers[w := Testing];
      }
      forall i | 0 <= i < |rows| ensures RowOk(rows, embed, i, next, workers, filled) {
        assert RowOk(rows, embed, i, next0, workers0, filled0);
        if filled[i].None? && Waiting(i) in workers0 {
          var v :| 0 <= v < |workers0| && workers0[v] == Waiting(i);
          assert workers[v] == Waiting(i);
        }
      }
    }
    assert forall w :: 0 <= w < |workers| ==> workers[w].Returned?;
    assert next == |rows| by {
      if rows != [] { assert workers[0].Returned?; }
    }
    forall i | 0 <= i < |rows|
      ensures filled[i].Some? && filled[i].value.row == rows[i] && filled[i].value.embedding in {None, embed(rows[i])}
    {
      assert RowOk(rows, embed, i, next, workers, filled);
    }
    enriched := seq(|rows|, i requires 0 <= i < |rows| => filled[i].value);
  }
}
