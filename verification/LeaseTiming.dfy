/** The renewal timer of a held lease: a tick every third of the lease, and a `lost` flag. */
module LeaseTiming {
  import opened Options
  import opened UploadJob

  const TICK_MS: nat := JOB_LEASE_MS / 3

  // Ticks are due every third of the lease after `start`.
  function Due(start: nat, k: nat): nat { start + k * TICK_MS }

  lemma DueGrows(start: nat, a: nat, b: nat)
    requires a <= b
    ensures Due(start, a) <= Due(start, b)
    ensures b <= a + 3 ==> Due(start, b) <= Due(start, a) + JOB_LEASE_MS
  {
    assert (b - a) * TICK_MS >= 0;
    assert Due(start, b) == Due(start, a) + (b - a) * TICK_MS;
  }

  // One tick: when its renewal computed the new end of the lease, and when that reached the
  // database; None when the renewal failed.
  datatype Renewal = Renewal(stamp: nat, lands: Option<nat>)

  // Tick k (from 0) is due at Due(start, k + 1); timer lateness and write delay together stay under
  // one tick. The claim was stamped at `claim` and returned at `start`.
  ghost predicate Schedule(claim: nat, start: nat, ticks: seq<Renewal>) {
    && claim <= start
    && forall k :: 0 <= k < |ticks| ==> OnTime(start, k, ticks[k])
  }

  predicate OnTime(start: nat, k: nat, r: Renewal) {
    && Due(start, k + 1) <= r.stamp
    && (r.lands.Some? ==> r.stamp <= r.lands.value < Due(start, k + 2))
  }

  // The end of the lease as the database has it at time t.
  function LeaseEnd(claim: nat, ticks: seq<Renewal>, t: nat): nat {
    if ticks == [] then claim + JOB_LEASE_MS
    else
      var last := ticks[|ticks| - 1];
      if last.lands.Some? && last.lands.value <= t then last.stamp + JOB_LEASE_MS
        else LeaseEnd(claim, ticks[..|ticks| - 1], t)
  }

  ghost predicate NoTwoFailuresInARow(ticks: seq<Renewal>) {
    forall k :: 0 < k < |ticks| ==> ticks[k].lands.Some? || ticks[k - 1].lands.Some?
  }

  // The first renewal that reaches the database, if one does.
  function FirstLanding(ticks: seq<Renewal>): (f: nat)
    ensures f <= |ticks|
    ensures f < |ticks| ==> ticks[f].lands.Some?
    ensures forall k :: 0 <= k < f ==> ticks[k].lands.None?
    decreases |ticks|
  {
    if ticks == [] then 0
    else
      var f := FirstLanding(ticks[..|ticks| - 1]);
      if f < |ticks| - 1 || ticks[|ticks| - 1].lands.Some? then f else |ticks|
  }

  // The moment up to which the lease the claim set has to last: the first landing, or, when none has
  // landed, the tick after the last one.
  function ClaimMustLast(start: nat, ticks: seq<Renewal>): nat {
    var f := FirstLanding(ticks);
    if f < |ticks| then ticks[f].lands.value else Due(start, |ticks| + 1)
  }

  // At every moment from the claim to the tick after the last one the lease has not run out.
  ghost predicate NeverRunsOut(claim: nat, start: nat, ticks: seq<Renewal>) {
    forall t :: start <= t < Due(start, |ticks| + 1) ==> t <= LeaseEnd(claim, ticks, t)
  }

  // The end of the lease set by the last landing among the first k ticks, or by the claim.
  function EndBefore(claim: nat, ticks: seq<Renewal>, k: nat): nat
    requires k <= |ticks|
  {
    if k == 0 then claim + JOB_LEASE_MS
    else if ticks[k - 1].lands.Some? then ticks[k - 1].stamp + JOB_LEASE_MS
    else EndBefore(claim, ticks, k - 1)
  }

  predicate LandsInTime(claim: nat, ticks: seq<Renewal>, k: nat)
    requires k < |ticks|
  {
    ticks[k].lands.Some? ==> ticks[k].lands.value <= EndBefore(claim, ticks, k) + 1
  }

  // Whatever the pattern of failures, the lease never runs out if and only if each renewal lands before
  // the lease set by the landing before it is over, and the last one covers the tick that comes next.
  lemma NeverRunsOutIff(claim: nat, start: nat, ticks: seq<Renewal>)
    requires Schedule(claim, start, ticks)
    ensures NeverRunsOut(claim, start, ticks) <==>
      && (forall k :: 0 <= k < |ticks| ==> LandsInTime(claim, ticks, k))
      && Due(start, |ticks| + 1) <= EndBefore(claim, ticks, |ticks|) + 1
  {
    var n := |ticks|;
    if NeverRunsOut(claim, start, ticks) {
      forall k | 0 <= k < n ensures LandsInTime(claim, ticks, k) {
        if ticks[k].lands.Some? {
          EndAtLanding(claim, start, ticks, k);
        }
      }
      EndAtLast(claim, start, ticks, Due(start, n + 1) - 1);
      DueGrows(start, 0, n);
    }
    if (forall k :: 0 <= k < n ==> LandsInTime(claim, ticks, k)) &&
      Due(start, n + 1) <= EndBefore(claim, ticks, n) + 1 {
      forall t | start <= t < Due(start, n + 1) ensures t <= LeaseEnd(claim, ticks, t) {
        EndAtAnyTime(claim, start, ticks, t);
        assert FirstAfter(ticks, t) < n ==> LandsInTime(claim, ticks, FirstAfter(ticks, t));
      }
    }
  }

  // The first renewal that lands after t, if one does.
  function FirstAfter(ticks: seq<Renewal>, t: nat): (k: nat)
    ensures k <= |ticks|
    ensures k < |ticks| ==> ticks[k].lands.Some? && t < ticks[k].lands.value
    ensures forall i :: 0 <= i < k && ticks[i].lands.Some? ==> ticks[i].lands.value <= t
    decreases |ticks|
  {
    if ticks == [] then 0
    else
      var n := |ticks| - 1;
      var k := FirstAfter(ticks[..n], t);
      if k < n || (ticks[n].lands.Some? && t < ticks[n].lands.value) then k else n + 1
  }

  // Renewals land in the order of their ticks.
  lemma LandInOrder(start: nat, ticks: seq<Renewal>, i: nat, k: nat)
    requires i < k <= |ticks| && OnTime(start, i, ticks[i]) && ticks[i].lands.Some?
    requires k < |ticks| ==> OnTime(start, k, ticks[k]) && ticks[k].lands.Some?
    ensures ticks[i].lands.value < Due(start, k + 1)
    ensures k < |ticks| ==> ticks[i].lands.value < ticks[k].lands.value
  {
    DueGrows(start, i + 2, k + 1);
  }

  lemma {:induction false} EndIs(claim: nat, ticks: seq<Renewal>, t: nat, k: nat)
    requires k <= |ticks|
    requires forall i :: 0 <= i < k && ticks[i].lands.Some? ==> ticks[i].lands.value <= t
    requires forall i :: k <= i < |ticks| && ticks[i].lands.Some? ==> t < ticks[i].lands.value
    ensures LeaseEnd(claim, ticks, t) == EndBefore(claim, ticks, k)
    decreases |ticks|
  {
    if ticks != [] {
      var n := |ticks| - 1;
      if k == n + 1 {
        EndIs(claim, ticks[..n], t, n);
        EndOfPrefix(claim, ticks, n, n);
      } else {
        EndIs(claim, ticks[..n], t, k);
        EndOfPrefix(claim, ticks, n, k);
      }
    }
  }

  lemma {:induction false} EndOfPrefix(claim: nat, ticks: seq<Renewal>, n: nat, k: nat)
    requires k <= n <= |ticks|
    ensures EndBefore(claim, ticks[..n], k) == EndBefore(claim, ticks, k)
    decreases k
  {
    if k > 0 {
      EndOfPrefix(claim, ticks, n, k - 1);
    }
  }

  lemma EndAtLanding(claim: nat, start: nat, ticks: seq<Renewal>, k: nat)
    requires Schedule(claim, start, ticks) && k < |ticks| && ticks[k].lands.Some?
    ensures start < ticks[k].lands.value < Due(start, |ticks| + 1)
    ensures LeaseEnd(claim, ticks, ticks[k].lands.value - 1) == EndBefore(claim, ticks, k)
  {
    assert OnTime(start, k, ticks[k]);
    DueGrows(start, k + 2, |ticks| + 1);
    DueGrows(start, 1, k + 1);
    forall i | 0 <= i < |ticks| && i != k && ticks[i].lands.Some?
      ensures if i < k then ticks[i].lands.value < ticks[k].lands.value else ticks[k].lands.value < ticks[i].lands.value
    {
      assert OnTime(start, i, ticks[i]);
      if i < k { LandInOrder(start, ticks, i, k); } else { LandInOrder(start, ticks, k, i); }
    }
    EndIs(claim, ticks, ticks[k].lands.value - 1, k);
  }

  lemma EndAtLast(claim: nat, start: nat, ticks: seq<Renewal>, t: nat)
    requires Schedule(claim, start, ticks) && t + 1 == Due(start, |ticks| + 1)
    ensures LeaseEnd(claim, ticks, t) == EndBefore(claim, ticks, |ticks|)
  {
    forall i | 0 <= i < |ticks| && ticks[i].lands.Some? ensures ticks[i].lands.value <= t {
      assert OnTime(start, i, ticks[i]);
      LandInOrder(start, ticks, i, |ticks|);
    }
    EndIs(claim, ticks, t, |ticks|);
  }

  lemma EndAtAnyTime(claim: nat, start: nat, ticks: seq<Renewal>, t: nat)
    requires Schedule(claim, start, ticks)
    ensures LeaseEnd(claim, ticks, t) == EndBefore(claim, ticks, FirstAfter(ticks, t))
  {
    var k := FirstAfter(ticks, t);
    forall i | k < i < |ticks| && ticks[i].lands.Some? ensures t < ticks[i].lands.value {
      assert OnTime(start, i, ticks[i]) && OnTime(start, k, ticks[k]);
      LandInOrder(start, ticks, k, i);
    }
    EndIs(claim, ticks, t, k);
  }

  /* ----- Up to two failures in a row ----- */

  ghost predicate NoThreeFailuresInARow(ticks: seq<Renewal>) {
    forall k :: 1 < k < |ticks| ==> ticks[k].lands.Some? || ticks[k - 1].lands.Some? || ticks[k - 2].lands.Some?
  }

  // Tick k lands after two failures, tick k - 3 having landed.
  predicate AfterTwoFailures(ticks: seq<Renewal>, k: nat)
    requires k < |ticks|
  {
    k >= 3 && ticks[k].lands.Some? && ticks[k - 1].lands.None? && ticks[k - 2].lands.None? && ticks[k - 3].lands.Some?
  }

  // Its delay is at most a millisecond more than the last landed renewal was late.
  predicate NoLaterThanTheLast(start: nat, ticks: seq<Renewal>, k: nat)
    requires 3 <= k < |ticks| && ticks[k].lands.Some?
  {
    ticks[k].lands.value - Due(start, k + 1) <= ticks[k - 3].stamp - Due(start, k - 2) + 1
  }

  lemma EndAfterClaim(claim: nat, ticks: seq<Renewal>, k: nat)
    requires k <= FirstLanding(ticks)
    ensures EndBefore(claim, ticks, k) == claim + JOB_LEASE_MS
    decreases k
  {
    if k > 0 {
      EndAfterClaim(claim, ticks, k - 1);
    }
  }

  // A landing that is one or two ticks after the last one is always in time.
  lemma ShortGap(claim: nat, start: nat, ticks: seq<Renewal>, j: nat, k: nat)
    requires Schedule(claim, start, ticks) && j < k <= |ticks| && ticks[j].lands.Some?
    requires forall i :: j < i < k ==> ticks[i].lands.None?
    ensures EndBefore(claim, ticks, k) == ticks[j].stamp + JOB_LEASE_MS
    ensures k <= j + 2 && k < |ticks| ==> LandsInTime(claim, ticks, k)
    ensures k <= j + 3 ==> Due(start, k + 1) <= EndBefore(claim, ticks, k)
    decreases k
  {
    assert OnTime(start, j, ticks[j]);
    if k > j + 1 {
      ShortGap(claim, start, ticks, j, k - 1);
    }
    if k < |ticks| { assert OnTime(start, k, ticks[k]); }
    DueGrows(start, j + 1, k + 1);
    if k <= j + 2 { DueGrows(start, j + 1, k + 2); }
  }

  // Renewals that fail at most twice in a row never let the lease run out if and only if the lease the
  // claim set lasts until the first one lands, and each that lands after two failures is no later than
  // the last one before them was.
  lemma TwoFailuresIff(claim: nat, start: nat, ticks: seq<Renewal>)
    requires Schedule(claim, start, ticks) && NoThreeFailuresInARow(ticks)
    ensures NeverRunsOut(claim, start, ticks) <==>
      && ClaimMustLast(start, ticks) <= claim + JOB_LEASE_MS + 1
      && forall k :: 0 <= k < |ticks| && AfterTwoFailures(ticks, k) ==> NoLaterThanTheLast(start, ticks, k)
  {
    NeverRunsOutIff(claim, start, ticks);
    var f, n := FirstLanding(ticks), |ticks|;
    ClaimPart(claim, start, ticks);
    if f < n {
      AfterFirst(claim, start, ticks, n);
    }
    forall k | 0 <= k < n && k != f
      ensures LandsInTime(claim, ticks, k) <==> (AfterTwoFailures(ticks, k) ==> NoLaterThanTheLast(start, ticks, k))
    {
      if k > f { AfterFirst(claim, start, ticks, k); }
    }
    hide Due, LandsInTime, AfterTwoFailures, NoLaterThanTheLast, Schedule, NeverRunsOut, NoThreeFailuresInARow,
      ClaimMustLast;
    if f < n {
      assert LandsInTime(claim, ticks, f) <==> ClaimMustLast(start, ticks) <= claim + JOB_LEASE_MS + 1;
    }
  }

  lemma ClaimPart(claim: nat, start: nat, ticks: seq<Renewal>)
    ensures
      var f := FirstLanding(ticks);
      && (f < |ticks| ==>
        (LandsInTime(claim, ticks, f) <==> ClaimMustLast(start, ticks) <= claim + JOB_LEASE_MS + 1) &&
        !AfterTwoFailures(ticks, f))
      && (f == |ticks| ==>
        (Due(start, f + 1) <= EndBefore(claim, ticks, f) + 1 <==>
        ClaimMustLast(start, ticks) <= claim + JOB_LEASE_MS + 1))
  {
    EndAfterClaim(claim, ticks, FirstLanding(ticks));
  }

  // A tick behind the first landing: the last landing before it is at most three ticks back.
  lemma AfterFirst(claim: nat, start: nat, ticks: seq<Renewal>, k: nat)
    requires Schedule(claim, start, ticks) && NoThreeFailuresInARow(ticks) && FirstLanding(ticks) < k <= |ticks|
    ensures k < |ticks| ==>
      (LandsInTime(claim, ticks, k) <==> (AfterTwoFailures(ticks, k) ==> NoLaterThanTheLast(start, ticks, k)))
    ensures k == |ticks| ==> Due(start, k + 1) <= EndBefore(claim, ticks, k) + 1
  {
    var j: nat := if ticks[k - 1].lands.Some? then k - 1 else if k - 2 >= 0 && ticks[k - 2].lands.Some? then k - 2
      else k - 3;
    ShortGap(claim, start, ticks, j, k);
    if j == k - 3 {
      assert Due(start, k + 1) == Due(start, k - 2) + JOB_LEASE_MS;
    }
  }

  // Renewals that fail one at a time never let the lease run out, if and only if the lease the claim
  // set lasts until the first renewal lands.
  lemma OneFailureIsTolerated(claim: nat, start: nat, ticks: seq<Renewal>)
    requires Schedule(claim, start, ticks) && NoTwoFailuresInARow(ticks)
    ensures NeverRunsOut(claim, start, ticks) <==> ClaimMustLast(start, ticks) <= claim + JOB_LEASE_MS + 1
  {
    assert NoThreeFailuresInARow(ticks);
    TwoFailuresIff(claim, start, ticks);
    forall k | 0 <= k < |ticks| ensures !AfterTwoFailures(ticks, k) {
    }
  }

  // In terms of what is known beforehand: it is enough that the claim took no longer to return than
  // one tick less the delay of the renewal that lands first.
  lemma QuickClaimIsEnough(claim: nat, start: nat, ticks: seq<Renewal>)
    requires Schedule(claim, start, ticks) && NoTwoFailuresInARow(ticks)
    requires
      var f := FirstLanding(ticks);
      start - claim + (if f < |ticks| then ticks[f].lands.value - Due(start, f + 1) else 0) <= TICK_MS
    ensures NeverRunsOut(claim, start, ticks)
  {
    OneFailureIsTolerated(claim, start, ticks);
    FirstLandingWithin(claim, start, ticks);
    var f := FirstLanding(ticks);
    assert ClaimMustLast(start, ticks) == if f < |ticks| then ticks[f].lands.value else Due(start, |ticks| + 1);
    WithinTwoTicks(start, if f < |ticks| then f + 1 else |ticks| + 1);
    hide *;
  }

  lemma WithinTwoTicks(start: nat, k: nat)
    requires k <= 2
    ensures Due(start, k) + TICK_MS <= start + JOB_LEASE_MS
  {
    DueGrows(start, k, 2);
  }

  // With no two failures in a row the first landing is one of the first two ticks.
  lemma FirstLandingWithin(claim: nat, start: nat, ticks: seq<Renewal>)
    requires Schedule(claim, start, ticks) && NoTwoFailuresInARow(ticks)
    ensures FirstLanding(ticks) <= 1
    ensures FirstLanding(ticks) < |ticks| ==>
      Due(start, FirstLanding(ticks) + 1) <= ClaimMustLast(start, ticks) < Due(start, FirstLanding(ticks) + 2)
    ensures start < ClaimMustLast(start, ticks) <= Due(start, |ticks| + 1)
  {
    var f := FirstLanding(ticks);
    if f < |ticks| {
      assert OnTime(start, f, ticks[f]);
    }
    assert |ticks| > 1 ==> ticks[1].lands.Some? || ticks[0].lands.Some?;
  }

  // So two failures in a row can be too many: when no renewal before them has landed and the third one
  // takes two milliseconds or more, there is a moment at which the lease has run out.
  lemma TwoFailuresAreNot(start: nat, delay: nat)
    requires 2 <= delay < TICK_MS
    ensures exists ticks: seq<Renewal> ::
      && |ticks| == 3 && Schedule(start, start, ticks)
      && ticks[2] == Renewal(Due(start, 3), Some(Due(start, 3) + delay))
      && LeaseEnd(start, ticks, Due(start, 3) + 1) < Due(start, 3) + 1
  {
    var first, second := Renewal(Due(start, 1), None), Renewal(Due(start, 2), None);
    var ticks := [first, second, Renewal(Due(start, 3), Some(Due(start, 3) + delay))];
    assert ticks[..2] == [first, second] && [first, second][..1] == [first] && [first][..0] == [];
    var t := Due(start, 3) + 1;
    assert LeaseEnd(start, [], t) ==
      LeaseEnd(start, [first], t) == LeaseEnd(start, [first, second], t) == LeaseEnd(start, ticks, t);
    assert forall k :: 0 <= k < 3 ==> OnTime(start, k, ticks[k]);
  }

  // The condition is not always met: if the claim takes a while to return and the first renewal fails,
  // a second renewal within the allowed delay can come too late.
  lemma SlowClaimCanLapse(start: nat)
    requires start >= 20_000
    ensures exists ticks: seq<Renewal> ::
      && |ticks| == 2 && Schedule(start - 20_000, start, ticks) && NoTwoFailuresInARow(ticks)
      && LeaseEnd(start - 20_000, ticks, Due(start, 3) - 2) < Due(start, 3) - 2
  {
    var first := Renewal(Due(start, 1), None);
    var ticks := [first, Renewal(Due(start, 2), Some(Due(start, 3) - 1))];
    var claim, t := start - 20_000, Due(start, 3) - 2;
    assert ticks[..1] == [first] && [first][..0] == [];
    assert LeaseEnd(claim, [], t) == LeaseEnd(claim, [first], t) == LeaseEnd(claim, ticks, t);
    assert forall k :: 0 <= k < 2 ==> OnTime(start, k, ticks[k]);
  }

  datatype Outcome = StillHeld | TakenOver | Unreachable

  /** What the attempt keeps in memory about its lease. */
  class HeldLease {
    var lost: bool
    var running: bool
    ghost var outcomes: seq<Outcome>

    constructor ()
      ensures !lost && running && outcomes == []
    {
      lost, running, outcomes := false, true, [];
    }

    ghost predicate Valid()
      reads this
    {
      lost <==> TakenOver in outcomes
    }

    // One tick's renewal coming back: only "another worker owns it" marks the lease lost; a
    // database error is left to the next tick.
    method OnRenewal(outcome: Outcome)
      requires Valid()
      modifies this
      ensures Valid() && outcomes == old(outcomes) + [outcome] && running == old(running)
    {
      if outcome.TakenOver? { lost := true; }
      outcomes := outcomes + [outcome];
    }

    // assertHeld: false stands for the LeaseLostError it throws.
    method AssertHeld() returns (held: bool)
      requires Valid()
      ensures held <==> TakenOver !in outcomes
    {
      held := !lost;
    }

    method Stop()
      modifies this`running
      ensures !running
    {
      running := false;
    }
  }
}
