/** Several processes (backend requests, reaper cycles) making sure of the same queue message at
    once: each looks, removes a dead message and adds a new one, in separate steps. */
module QueueRace {
  // What the queue holds under the fixed ID: nothing, a message that will still run, or one that
  // is finished or exhausted. Only an active message refuses to be removed.
  datatype Slot = Absent | Waiting | Active | Dead

  predicate Alive(s: Slot) {
    s.Waiting? || s.Active?
  }

  // Where one process stands: about to look, about to remove, about to add, or returned.
  datatype Phase = Looking | Removing | Adding | Returned

  datatype State = State(slot: Slot, phases: seq<Phase>)

  // Advance(i): process i takes its next step. PickUp: a worker starts the waiting message.
  // Finish: the active message has run. RemovalFails(i): process i's removal fails for another reason
  // than an active message, which it cannot tell apart.
  datatype Event = Advance(i: nat) | PickUp | Finish | RemovalFails(i: nat)

  function Apply(s: State, e: Event): State {
    match e
    case PickUp => if s.slot.Waiting? then s.(slot := Active) else s
    case Finish => if s.slot.Active? then s.(slot := Dead) else s
    case RemovalFails(i) => if i < |s.phases| && s.phases[i].Removing? then s.(phases := s.phases[i := Returned]) else s
    case Advance(i) =>
      if i >= |s.phases| then s
      else
        match s.phases[i]
        case Looking =>
          s.(phases := s.phases[i := if Alive(s.slot) then Returned else if s.slot.Dead? then Removing else Adding])
        case Removing =>
          if s.slot.Active? then s.(phases := s.phases[i := Returned]) else State(Absent, s.phases[i := Adding])
        case Adding => State(if s.slot.Absent? then Waiting else s.slot, s.phases[i := Returned])
        case Returned => s
  }

  function Play(s: State, events: seq<Event>): State
    decreases |events|
  {
    if events == [] then s else Apply(Play(s, events[..|events| - 1]), events[|events| - 1])
  }

  predicate Started(s: State) {
    forall i :: 0 <= i < |s.phases| ==> s.phases[i].Looking?
  }

  lemma {:induction false} SameProcesses(s: State, events: seq<Event>)
    ensures |Play(s, events).phases| == |s.phases|
    decreases |events|
  {
    if events != [] {
      SameProcesses(s, events[..|events| - 1]);
    }
  }

  /* ----- What a process that returned can rely on ----- */

  // After the first m events the message is live, and process i takes its look then or has taken it.
  ghost predicate LiveSinceLook(s: State, events: seq<Event>, i: nat, m: nat) {
    && m <= |events| && Alive(Play(s, events[..m]).slot)
    && i < |Play(s, events[..m]).phases|
    && (Play(s, events[..m]).phases[i].Looking? ==> m < |events| && events[m] == Advance(i))
  }

  // Its removal failed for another reason than a live message.
  ghost predicate RemovalFailed(s: State, events: seq<Event>, i: nat) {
    exists m: nat :: m < |events| && events[m] == RemovalFails(i) && i < |Play(s, events[..m]).phases| &&
      Play(s, events[..m]).phases[i].Removing?
  }

  // Whatever the interleaving of any number of processes and workers, a process whose removal does not
  // fail for another reason returns only after a moment, at or after its look, when the message was
  // live: it need not be its own, and it may have finished since.
  lemma {:induction false} ReturnsAfterLive(s: State, events: seq<Event>, i: nat)
    requires i < |s.phases| && s.phases[i].Looking?
    ensures |Play(s, events).phases| == |s.phases|
    ensures Play(s, events).phases[i].Returned? ==>
      RemovalFailed(s, events, i) || exists m: nat :: LiveSinceLook(s, events, i, m)
    ensures Play(s, events).phases[i].Adding? && !Play(s, events).slot.Absent? ==>
      RemovalFailed(s, events, i) || exists m: nat :: LiveSinceLook(s, events, i, m)
    decreases |events|
  {
    if events != [] {
      var n := |events| - 1;
      var before, e := events[..n], events[n];
      ReturnsAfterLive(s, before, i);
      if m: nat :| LiveSinceLook(s, before, i, m) {
        assert before[..m] == events[..m];
        assert LiveSinceLook(s, events, i, m);
      } else if RemovalFailed(s, before, i) {
        FailedBefore(s, events, i);
      } else {
        ReturnStep(Play(s, before), e, i);
        hide Apply;
        assert events[..n + 1] == events;
        assert e == RemovalFails(i) && Play(s, before).phases[i].Removing? ==> RemovalFailed(s, events, i);
        assert Alive(Play(s, before).slot) && e == Advance(i) ==> LiveSinceLook(s, events, i, n);
        assert Alive(Play(s, events).slot) && !Play(s, events).phases[i].Looking? ==>
          LiveSinceLook(s, events, i, n + 1);
      }
    }
  }

  lemma ReturnStep(t: State, e: Event, i: nat)
    requires i < |t.phases| && !t.phases[i].Returned? && (t.phases[i].Adding? ==> t.slot.Absent?)
    ensures
      var after := Apply(t, e);
      && |after.phases| == |t.phases|
      && (after.phases[i].Returned? ==>
            (Alive(t.slot) && e == Advance(i)) || Alive(after.slot) || (e == RemovalFails(i) && t.phases[i].Removing?))
      && (after.phases[i].Adding? ==> after.slot.Absent? || Alive(after.slot))
  {
  }

  lemma FailedBefore(s: State, events: seq<Event>, i: nat)
    requires events != [] && RemovalFailed(s, events[..|events| - 1], i)
    ensures RemovalFailed(s, events, i)
  {
    var before := events[..|events| - 1];
    var m: nat :| m < |before| && before[m] == RemovalFails(i) && i < |Play(s, before[..m]).phases| &&
      Play(s, before[..m]).phases[i].Removing?;
    assert before[..m] == events[..m];
  }

  // Once a process has got past the dead message it is gone for good, and once one has returned
  // there is a live message or another process about to add one.
  ghost predicate Covered(s: State) {
    && ((exists i :: 0 <= i < |s.phases| && s.phases[i] in {Adding, Returned}) ==> !s.slot.Dead?)
    && ((exists i :: 0 <= i < |s.phases| && s.phases[i].Returned?) ==>
      Alive(s.slot) || exists j :: 0 <= j < |s.phases| && s.phases[j].Adding?)
  }

  lemma StepKeepsCovered(s: State, e: Event)
    requires Covered(s) && !(e.Finish? && s.slot.Active?) && !e.RemovalFails?
    ensures Covered(Apply(s, e)) && |Apply(s, e).phases| == |s.phases|
  {
    var t := Apply(s, e);
    assert forall k :: 0 <= k < |s.phases| && !(e.Advance? && e.i == k) ==> t.phases[k] == s.phases[k];
    if e.Advance? && e.i < |s.phases| {
      assert s.phases[e.i].Removing? && t.slot.Absent? ==> t.phases[e.i].Adding?;
      assert s.phases[e.i] in {Adding, Returned} ==> !s.slot.Dead?;
    }
  }

  // The message ran to its end during these events.
  ghost predicate Ran(s: State, events: seq<Event>) {
    exists m: nat :: m < |events| && Play(s, events[..m]).slot.Active? && events[m].Finish?
  }

  predicate NoRemovalFails(events: seq<Event>) {
    forall m :: 0 <= m < |events| ==> !events[m].RemovalFails?
  }

  lemma {:induction false} CoveredUnlessRan(s: State, events: seq<Event>)
    requires Covered(s) && NoRemovalFails(events)
    ensures Covered(Play(s, events)) || Ran(s, events)
    decreases |events|
  {
    hide Covered, Apply;
    if events != [] {
      var n := |events| - 1;
      CoveredUnlessRan(s, events[..n]);
      if m: nat :| m < n && Play(s, events[..n][..m]).slot.Active? && events[..n][m].Finish? {
        assert events[..n][..m] == events[..m];
      } else if !(events[n].Finish? && Play(s, events[..n]).slot.Active?) {
        StepKeepsCovered(Play(s, events[..n]), events[n]);
      }
    }
  }

  // If removals fail for active messages only, then once all have returned there is a live message (and
  // never more than one, the ID being fixed), or one has run to its end meanwhile.
  lemma AllReturnedMeansLive(s: State, events: seq<Event>)
    requires Started(s) && s.phases != [] && NoRemovalFails(events)
    ensures
      var t := Play(s, events);
      (forall i :: 0 <= i < |t.phases| ==> t.phases[i].Returned?) ==> Alive(t.slot) || Ran(s, events)
  {
    var t := Play(s, events);
    SameProcesses(s, events);
    CoveredUnlessRan(s, events);
    if (forall i :: 0 <= i < |t.phases| ==> t.phases[i].Returned?) && Covered(t) {
      assert t.phases[0].Returned?;
    }
  }

  /* ----- When a live message is taken away ----- */

  // After these events the message is live, and the next one takes it away.
  ghost predicate RemovesLive(s: State, events: seq<Event>, e: Event) {
    Alive(Play(s, events).slot) && Apply(Play(s, events), e).slot.Absent?
  }

  // A process about to remove is alone with the dead message it saw. With two processes that takes a
  // message that one of them had added before.
  ghost predicate Quiet(s: State) {
    && |s.phases| <= 2
    && (|s.phases| == 2 && !s.slot.Absent? ==> exists j :: 0 <= j < 2 && s.phases[j].Returned?)
    && forall i :: 0 <= i < |s.phases| && s.phases[i].Removing? ==>
         s.slot.Dead? && forall j :: 0 <= j < |s.phases| && j != i ==> s.phases[j].Returned?
  }

  lemma StepKeepsQuiet(s: State, e: Event)
    requires Quiet(s)
    ensures Quiet(Apply(s, e))
  {
    var t := Apply(s, e);
    assert forall k :: 0 <= k < |s.phases| && !((e.Advance? || e.RemovalFails?) && e.i == k) ==>
      t.phases[k] == s.phases[k];
    if (e.Advance? || e.RemovalFails?) && e.i < |s.phases| && |s.phases| == 2 && !t.slot.Absent? {
      assert t.phases[e.i].Returned? || t.phases[1 - e.i].Returned?;
    }
  }

  lemma {:induction false} QuietNeverRemovesLive(s: State, events: seq<Event>, e: Event)
    requires Quiet(s)
    ensures Quiet(Play(s, events)) && !RemovesLive(s, events, e)
    decreases |events|
  {
    if events != [] {
      var n := |events| - 1;
      QuietNeverRemovesLive(s, events[..n], e);
      StepKeepsQuiet(Play(s, events[..n]), events[n]);
    }
  }

  // Processes that have just started can take a live message away if and only if there are two of
  // them, or three when there is no message to begin with.
  lemma LiveMessageRemovedIff(s: State)
    requires Started(s)
    ensures (exists events, e :: RemovesLive(s, events, e)) <==> |s.phases| >= if s.slot.Absent? then 3 else 2
  {
    if |s.phases| >= if s.slot.Absent? then 3 else 2 {
      var events := DeadAfter(s) + [Advance(0), Advance(1), Advance(1), Advance(1)];
      BecomesDead(s);
      PlayConcat(s, DeadAfter(s), [Advance(0), Advance(1), Advance(1), Advance(1)]);
      TwoOnADeadMessage(Play(s, DeadAfter(s)));
      assert RemovesLive(s, events, Advance(0));
    } else {
      assert |s.phases| == 2 ==> s.slot.Absent?;
      forall events, e ensures !RemovesLive(s, events, e) {
        QuietNeverRemovesLive(s, events, e);
      }
    }
  }

  // A schedule that leaves a dead message and the first two processes about to look.
  function DeadAfter(s: State): seq<Event> {
    match s.slot
    case Dead => []
    case Active => [Finish]
    case Waiting => [PickUp, Finish]
    case Absent => [Advance(2), Advance(2), PickUp, Finish]
  }

  lemma BecomesDead(s: State)
    requires Started(s) && |s.phases| >= if s.slot.Absent? then 3 else 2
    ensures
      var t := Play(s, DeadAfter(s));
      t.slot.Dead? && |t.phases| >= 2 && t.phases[0].Looking? && t.phases[1].Looking?
  {
    match s.slot
    case Dead =>
    case Active => PlayTwo(s, Finish, Finish);
    case Waiting => PlayTwo(s, PickUp, Finish);
    case Absent =>
      PlayTwo(s, Advance(2), Advance(2));
      PlayTwo(Play(s, [Advance(2), Advance(2)]), PickUp, Finish);
      PlayConcat(s, [Advance(2), Advance(2)], [PickUp, Finish]);
      assert [Advance(2), Advance(2)] + [PickUp, Finish] == DeadAfter(s);
  }

  lemma TwoOnADeadMessage(s: State)
    requires s.slot.Dead? && |s.phases| >= 2 && s.phases[0].Looking? && s.phases[1].Looking?
    ensures RemovesLive(s, [Advance(0), Advance(1), Advance(1), Advance(1)], Advance(0))
  {
    var both := Play(s, [Advance(0), Advance(1)]);
    PlayTwo(s, Advance(0), Advance(1));
    PlayTwo(both, Advance(1), Advance(1));
    PlayConcat(s, [Advance(0), Advance(1)], [Advance(1), Advance(1)]);
    assert [Advance(0), Advance(1)] + [Advance(1), Advance(1)] == [Advance(0), Advance(1), Advance(1), Advance(1)];
  }

  lemma PlayTwo(s: State, first: Event, second: Event)
    ensures Play(s, [first]) == Apply(s, first)
    ensures Play(s, [first, second]) == Apply(Apply(s, first), second)
  {
    assert [first][..0] == [] && [first, second][..1] == [first];
  }

  lemma {:induction false} PlayConcat(s: State, first: seq<Event>, second: seq<Event>)
    ensures Play(s, first + second) == Play(Play(s, first), second)
    decreases |second|
  {
    if second == [] {
      assert first + second == first;
    } else {
      var n := |second| - 1;
      assert (first + second)[..|first| + n] == first + second[..n];
      PlayConcat(s, first, second[..n]);
    }
  }

  // A process on its own never does, wherever it stands: its removal only ever meets the dead message
  // it saw.
  lemma AloneNeverRemovesLive(s: State, events: seq<Event>, e: Event)
    requires |s.phases| == 1 && (s.phases[0].Removing? ==> s.slot.Dead?)
    ensures !RemovesLive(s, events, e)
  {
    QuietNeverRemovesLive(s, events, e);
  }

  // Two can: the second removes and re-adds the message the first had just put there.
  lemma TwoCanReplaceLive()
    ensures exists events: seq<Event> ::
      && |events| == 6
      && Alive(Play(State(Dead, [Looking, Looking]), events[..4]).slot)
      && Play(State(Dead, [Looking, Looking]), events[..5]).slot.Absent?
      && Alive(Play(State(Dead, [Looking, Looking]), events).slot)
  {
    var events := [Advance(0), Advance(1), Advance(1), Advance(1), Advance(0), Advance(0)];
    var s0 := State(Dead, [Looking, Looking]);
    var s1 := State(Dead, [Removing, Looking]);
    var s2 := State(Dead, [Removing, Removing]);
    var s3 := State(Absent, [Removing, Adding]);
    var s4 := State(Waiting, [Removing, Returned]);
    var s5 := State(Absent, [Adding, Returned]);
    var s6 := State(Waiting, [Returned, Returned]);
    hide Play, Apply;
    RaceSteps();
    assert events[..0] == [];
    PlayTwo(s0, events[0], events[1]);
    PlayPrefix(s0, events, 1, s1);
    PlayPrefix(s0, events, 2, s2);
    PlayPrefix(s0, events, 3, s3);
    PlayPrefix(s0, events, 4, s4);
    PlayPrefix(s0, events, 5, s5);
    PlayPrefix(s0, events, 6, s6);
    assert events[..6] == events;
  }

  lemma RaceSteps()
    ensures Apply(State(Dead, [Looking, Looking]), Advance(0)) == State(Dead, [Removing, Looking])
    ensures Apply(State(Dead, [Removing, Looking]), Advance(1)) == State(Dead, [Removing, Removing])
    ensures Apply(State(Dead, [Removing, Removing]), Advance(1)) == State(Absent, [Removing, Adding])
    ensures Apply(State(Absent, [Removing, Adding]), Advance(1)) == State(Waiting, [Removing, Returned])
    ensures Apply(State(Waiting, [Removing, Returned]), Advance(0)) == State(Absent, [Adding, Returned])
    ensures Apply(State(Absent, [Adding, Returned]), Advance(0)) == State(Waiting, [Returned, Returned])
  {
  }

  lemma PlayPrefix(s: State, events: seq<Event>, k: nat, t: State)
    requires 0 < k <= |events| && Apply(Play(s, events[..k - 1]), events[k - 1]) == t
    ensures Play(s, events[..k]) == t
  {
    assert events[..k][..k - 1] == events[..k - 1];
  }
}
