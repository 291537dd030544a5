/** The notification email outbox: retries, claims that run out, crashes and overlapping workers. */
module EmailOutbox {
  import opened Options

  const CLAIM_MS := 120_000
  const RETRY_DELAYS_MS: seq<nat> := [60_000, 300_000, 1_800_000, 7_200_000]
  const MAX_ATTEMPTS := 5
  const MAX_EMAILS_PER_CYCLE := 25

  datatype Status = Pending | Sent | Failed

  datatype Email = Email(status: Status, attempts: nat, due: Option<nat>, claimedUntil: Option<nat>)

  predicate Due(e: Email, now: nat) {
    && e.status.Pending?
    && (e.due.Some? ==> e.due.value <= now)
    && (e.claimedUntil.Some? ==> e.claimedUntil.value < now)
  }

  function Claimed(e: Email, now: nat): Email {
    e.(claimedUntil := Some(now + CLAIM_MS), attempts := e.attempts + 1)
  }

  // None of the three closing writes looks at the status or at who holds the claim.
  function MarkedSent(e: Email): Email {
    e.(status := Sent, claimedUntil := None, due := None)
  }

  function Rescheduled(e: Email, at: nat): Email {
    e.(due := Some(at), claimedUntil := None)
  }

  function MarkedFailed(e: Email): Email {
    e.(status := Failed, claimedUntil := None, due := None)
  }

  // The delay before the attempt after this one.
  function Delay(attempt: nat): nat
    requires 1 <= attempt < MAX_ATTEMPTS
  {
    RETRY_DELAYS_MS[attempt - 1]
  }

  // After an error in attempt `attempt`.
  function GivenUpOrRescheduled(e: Email, attempt: nat, now: nat): Email
    requires 1 <= attempt
  {
    if attempt >= MAX_ATTEMPTS then MarkedFailed(e) else Rescheduled(e, now + Delay(attempt))
  }

  /* ----- One email, any number of workers ----- */

  // Claimed: before the mail server has answered. Accepted: the server took the mail, "sent" is not
  // recorded yet. Broken: something failed, the error handler runs next.
  datatype Phase = Claiming | Accepted | Broken

  datatype Flight = Flight(phase: Phase, until: nat)

  // flights: attempts in progress by number. accepted: how often the mail server took the mail.
  // missing: some attempt found no recipient. crashes: attempts that died.
  datatype World = World(email: Email, now: nat, flights: map<nat, Flight>, accepted: nat, missing: bool, crashes: nat)

  datatype Event =
    | Tick(ms: nat)
    | Claim
    | NoRecipient(n: nat, saved: bool)
    | Refuse(n: nat)
    | Accept(n: nat)
    | RecordSent(n: nat, saved: bool)
    | HandleError(n: nat)
    | Crash(n: nat)

  predicate InPhase(w: World, n: nat, phase: Phase) {
    n in w.flights && w.flights[n].phase == phase
  }

  function SetPhase(w: World, n: nat, phase: Phase): World
    requires n in w.flights
  {
    w.(flights := w.flights[n := w.flights[n].(phase := phase)])
  }

  function End(w: World, n: nat, e: Email): World {
    w.(email := e, flights := w.flights - {n})
  }

  function Apply(w: World, e: Event): World {
    match e
    case Tick(ms) => w.(now := w.now + ms)
    case Claim =>
      if Due(w.email, w.now) then
        w.(email := Claimed(w.email, w.now),
          flights := w.flights[w.email.attempts + 1 := Flight(Claiming, w.now + CLAIM_MS)])
      else w
    case NoRecipient(n, saved) =>
      if !InPhase(w, n, Claiming) then w
      else if saved then End(w, n, MarkedFailed(w.email)).(missing := true)
      else SetPhase(w, n, Broken).(missing := true)
    case Refuse(n) => if InPhase(w, n, Claiming) then SetPhase(w, n, Broken) else w
    case Accept(n) => if InPhase(w, n, Claiming) then SetPhase(w, n, Accepted).(accepted := w.accepted + 1) else w
    case RecordSent(n, saved) =>
      if !InPhase(w, n, Accepted) then w
      else if saved then End(w, n, MarkedSent(w.email))
      else SetPhase(w, n, Broken)
    case HandleError(n) =>
      if InPhase(w, n, Broken) && n > 0 then End(w, n, GivenUpOrRescheduled(w.email, n, w.now)) else w
    case Crash(n) => if n in w.flights then End(w, n, w.email).(crashes := w.crashes + 1) else w
  }

  function Run(w: World, events: seq<Event>): World
    decreases |events|
  {
    if events == [] then w else Apply(Run(w, events[..|events| - 1]), events[|events| - 1])
  }

  function Queued(due: nat): World {
    World(Email(Pending, 0, Some(due), None), due, map[], 0, false, 0)
  }

  // Attempts whose mail the server may still take.
  function Open(flights: map<nat, Flight>): set<nat> {
    set n | n in flights && flights[n].phase.Claiming?
  }

  ghost predicate Inv(w: World) {
    && (forall n :: n in w.flights ==> 1 <= n <= w.email.attempts)
    && w.accepted + |Open(w.flights)| <= w.email.attempts
    && (forall n :: n in w.flights && w.flights[n].phase.Accepted? ==> w.accepted > 0)
    && (w.email.status.Sent? ==> w.accepted > 0)
    && (w.email.status.Failed? ==> w.missing || w.email.attempts >= MAX_ATTEMPTS)
  }

  lemma OpenAdds(flights: map<nat, Flight>, n: nat, until: nat)
    ensures |Open(flights[n := Flight(Claiming, until)])| <= |Open(flights)| + 1
  {
    assert Open(flights[n := Flight(Claiming, until)]) == Open(flights) + {n};
  }

  lemma OpenDrops(flights: map<nat, Flight>, n: nat, f: Flight)
    requires n in Open(flights) && !f.phase.Claiming?
    ensures |Open(flights[n := f])| == |Open(flights)| - 1
  {
    assert Open(flights[n := f]) == Open(flights) - {n};
  }

  lemma OpenShrinks(before: map<nat, Flight>, after: map<nat, Flight>)
    requires forall n :: n in Open(after) ==> n in Open(before)
    ensures |Open(after)| <= |Open(before)|
  {
    assert Open(before) == Open(after) + (Open(before) - Open(after));
  }

  lemma StepKeepsInv(w: World, e: Event)
    requires Inv(w)
    ensures Inv(Apply(w, e))
  {
    var after := Apply(w, e);
    match e
    case Claim =>
      OpenAdds(w.flights, w.email.attempts + 1, w.now + CLAIM_MS);
      hide Open;
    case Accept(n) =>
      if InPhase(w, n, Claiming) {
        OpenDrops(w.flights, n, w.flights[n].(phase := Accepted));
      }
      hide Open;
    case Tick(_) =>
    case _ =>
      OthersOpenNone(w, e);
      hide Open;
  }

  lemma OthersOpenNone(w: World, e: Event)
    requires !e.Claim? && !e.Accept? && !e.Tick?
    ensures |Open(Apply(w, e).flights)| <= |Open(w.flights)|
  {
    OpenShrinks(w.flights, Apply(w, e).flights);
  }

  // In every run: "sent" means the mail server took the mail, "failed" means there was no recipient
  // or five attempts were made, the server takes the mail at most once per attempt, and the handler
  // that schedules a retry finds a delay for it.
  lemma {:induction false} RunKeepsInv(due: nat, events: seq<Event>)
    ensures Inv(Run(Queued(due), events))
    decreases |events|
  {
    if events == [] {
      assert Open(map[]) == {};
    } else {
      RunKeepsInv(due, events[..|events| - 1]);
      StepKeepsInv(Run(Queued(due), events[..|events| - 1]), events[|events| - 1]);
    }
  }

  // After a failed attempt the email is due again exactly when that attempt's delay is over, and the
  // delays grow from a minute to two hours.
  lemma RetryWaits(w: World, n: nat, ms: nat)
    requires InPhase(w, n, Broken) && 1 <= n < MAX_ATTEMPTS && w.email.status.Pending?
    ensures
      var later := Apply(Apply(w, HandleError(n)), Tick(ms));
      Due(later.email, later.now) <==> ms >= Delay(n)
    ensures 60_000 <= Delay(n) <= 7_200_000 && (n > 1 ==> Delay(n - 1) < Delay(n))
  {
    assert RETRY_DELAYS_MS[0] < RETRY_DELAYS_MS[1] < RETRY_DELAYS_MS[2] < RETRY_DELAYS_MS[3];
    assert n == 1 || n == 2 || n == 3 || n == 4;
  }

  /* ----- Runs in which no claim runs out under a living worker ----- */

  predicate InTime(w: World) {
    forall n :: n in w.flights ==> w.now <= w.flights[n].until
  }

  predicate Prompt(due: nat, events: seq<Event>) {
    forall k :: 0 <= k <= |events| ==> InTime(Run(Queued(due), events[..k]))
  }

  // One attempt at a time, and it is the latest one.
  ghost predicate Single(w: World) {
    && (forall n :: n in w.flights ==>
      n == w.email.attempts > 0 && w.email.status.Pending? && w.email.claimedUntil == Some(w.flights[n].until))
    && w.email.attempts <= MAX_ATTEMPTS + w.crashes
    && (w.flights == map[] && w.email.status.Pending? ==> w.email.attempts < MAX_ATTEMPTS + w.crashes)
  }

  lemma StepKeepsSingle(w: World, e: Event)
    requires Single(w) && InTime(w)
    ensures Single(Apply(w, e))
    ensures !w.email.status.Pending? ==> Apply(w, e).email == w.email && Apply(w, e).accepted == w.accepted
  {
    match e
    case Claim =>
      if Due(w.email, w.now) {
        assert w.flights == map[];
        assert w.email.attempts + 1 in Apply(w, e).flights;
      }
    case Tick(_) =>
    case _ =>
      if e.n in w.flights {
        assert w.flights.Keys == {e.n};
        assert w.flights - {e.n} == map[];
      }
  }

  lemma {:induction false} PromptRunIsSingle(due: nat, events: seq<Event>)
    requires Prompt(due, events)
    ensures Single(Run(Queued(due), events))
    decreases |events|
  {
    if events != [] {
      var n := |events| - 1;
      forall k | 0 <= k <= n ensures InTime(Run(Queued(due), events[..n][..k])) {
        assert events[..n][..k] == events[..k];
      }
      PromptRunIsSingle(due, events[..n]);
      StepKeepsSingle(Run(Queued(due), events[..n]), events[n]);
    }
  }

  // The mail is sent at most five times, and once more per crash.
  lemma SentAtMostFiveTimes(due: nat, events: seq<Event>)
    requires Prompt(due, events)
    ensures Run(Queued(due), events).accepted <= MAX_ATTEMPTS + Run(Queued(due), events).crashes
  {
    PromptRunIsSingle(due, events);
    RunKeepsInv(due, events);
  }

  // Nothing in progress, the email due: the next attempt can be claimed.
  ghost predicate Ready(w: World, attempts: nat, crashes: nat) {
    w.flights == map[] && Due(w.email, w.now) && w.email.attempts == w.accepted == attempts && w.crashes == crashes
  }

  lemma Extend(due: nat, events: seq<Event>, e: Event) returns (longer: seq<Event>)
    requires Prompt(due, events) && InTime(Apply(Run(Queued(due), events), e))
    ensures Prompt(due, longer) && Run(Queued(due), longer) == Apply(Run(Queued(due), events), e)
  {
    longer := events + [e];
    assert longer[..|events|] == events;
    forall k | 0 <= k <= |longer| ensures InTime(Run(Queued(due), longer[..k])) {
      if k <= |events| {
        assert longer[..k] == events[..k];
      } else {
        assert longer[..k] == longer;
      }
    }
  }

  // The mail is accepted, "sent" cannot be recorded, and the attempt is rescheduled.
  lemma AcceptedNotRecorded(due: nat, events: seq<Event>, n: nat) returns (longer: seq<Event>)
    requires Prompt(due, events) && n < MAX_ATTEMPTS - 1 && Ready(Run(Queued(due), events), n, 0)
    ensures Prompt(due, longer) && Ready(Run(Queued(due), longer), n + 1, 0)
  {
    hide Prompt, Run, Queued;
    longer := Extend(due, events, Claim);
    longer := Extend(due, longer, Accept(n + 1));
    longer := Extend(due, longer, RecordSent(n + 1, false));
    assert InPhase(Run(Queued(due), longer), n + 1, Broken);
    longer := Extend(due, longer, HandleError(n + 1));
    assert Run(Queued(due), longer).flights == map[];
    longer := Extend(due, longer, Tick(Delay(n + 1)));
  }

  // The mail is accepted and the worker dies.
  lemma AcceptedThenCrashed(due: nat, events: seq<Event>, n: nat, crashes: nat) returns (longer: seq<Event>)
    requires Prompt(due, events) && Ready(Run(Queued(due), events), n, crashes)
    ensures Prompt(due, longer) && Ready(Run(Queued(due), longer), n + 1, crashes + 1)
  {
    longer := Extend(due, events, Claim);
    longer := Extend(due, longer, Accept(n + 1));
    longer := Extend(due, longer, Crash(n + 1));
    assert Run(Queued(due), longer).flights == map[];
    longer := Extend(due, longer, Tick(CLAIM_MS + 1));
  }

  lemma {:induction false} FourThenCrashes(due: nat, crashes: nat) returns (events: seq<Event>)
    ensures Prompt(due, events) && Ready(Run(Queued(due), events), MAX_ATTEMPTS - 1 + crashes, crashes)
  {
    if crashes == 0 {
      events := [];
      assert Run(Queued(due), []) == Queued(due);
      events := AcceptedNotRecorded(due, events, 0);
      events := AcceptedNotRecorded(due, events, 1);
      events := AcceptedNotRecorded(due, events, 2);
      events := AcceptedNotRecorded(due, events, 3);
    } else {
      events := FourThenCrashes(due, crashes - 1);
      events := AcceptedThenCrashed(due, events, MAX_ATTEMPTS - 1 + crashes - 1, crashes - 1);
    }
  }

  // The bound is reached: for every number of crashes some prompt run sends the mail that often.
  lemma BoundIsReached(due: nat, crashes: nat)
    ensures exists events ::
      Prompt(due, events) && Run(Queued(due), events).crashes == crashes &&
        Run(Queued(due), events).accepted == MAX_ATTEMPTS + crashes
  {
    var events := FourThenCrashes(due, crashes);
    events := Extend(due, events, Claim);
    events := Extend(due, events, Accept(MAX_ATTEMPTS + crashes));
  }

  // What is sent or failed stays so.
  lemma {:induction false} FinalStaysFinal(due: nat, events: seq<Event>, k: nat)
    requires Prompt(due, events) && k <= |events|
    requires !Run(Queued(due), events[..k]).email.status.Pending?
    ensures Run(Queued(due), events).email == Run(Queued(due), events[..k]).email
    ensures Run(Queued(due), events).accepted == Run(Queued(due), events[..k]).accepted
    decreases |events|
  {
    var n := |events| - 1;
    if k == |events| {
      assert events[..k] == events;
    } else {
      forall j | 0 <= j <= n ensures InTime(Run(Queued(due), events[..n][..j])) {
        assert events[..n][..j] == events[..j];
      }
      assert events[..n][..k] == events[..k];
      FinalStaysFinal(due, events[..n], k);
      PromptRunIsSingle(due, events[..n]);
      StepKeepsSingle(Run(Queued(due), events[..n]), events[n]);
    }
  }

  // A fifth attempt that outlives its claim while a sixth one delivers the mail.
  function Overtaken(w: World): World {
    Apply(Apply(Apply(Apply(Apply(w, Claim), Tick(CLAIM_MS + 1)), Claim), Accept(6)), RecordSent(6, true))
  }

  // Not so when a claim runs out: an attempt that is late can turn "sent" into "failed".
  lemma LateAttemptUndoesSent(w: World)
    requires Due(w.email, w.now) && w.email.attempts == MAX_ATTEMPTS - 1 && w.flights == map[]
    ensures Overtaken(w).email.status.Sent?
    ensures Apply(Apply(Overtaken(w), Refuse(5)), HandleError(5)).email.status.Failed?
  {
    var first := Apply(Apply(w, Claim), Tick(CLAIM_MS + 1));
    assert InPhase(first, 5, Claiming) && Due(first.email, first.now);
    var second := Apply(first, Claim);
    assert InPhase(second, 5, Claiming) && InPhase(second, 6, Claiming);
    var sent := Apply(Apply(second, Accept(6)), RecordSent(6, true));
    assert InPhase(sent, 5, Claiming);
  }

  // An attempt in progress that can still turn a sent email into a failed one, or the other way.
  ghost predicate CanOverturn(w: World, n: nat) {
    && n in w.flights
    && if w.email.status.Sent? then w.flights[n].phase.Claiming? || n >= MAX_ATTEMPTS else !w.flights[n].phase.Broken?
  }

  ghost predicate Settled(w: World) {
    !w.email.status.Pending? && forall n :: n in w.flights ==> !CanOverturn(w, n)
  }

  lemma {:induction false} SettledStaysSo(w: World, events: seq<Event>)
    requires Settled(w)
    ensures Settled(Run(w, events)) && Run(w, events).email.status == w.email.status
    decreases |events|
  {
    if events != [] {
      var before, e := Run(w, events[..|events| - 1]), events[|events| - 1];
      SettledStaysSo(w, events[..|events| - 1]);
      SettledStep(before, e);
    }
  }

  lemma SettledStep(w: World, e: Event)
    requires Settled(w)
    ensures Settled(Apply(w, e)) && Apply(w, e).email.status == w.email.status
  {
    var after := Apply(w, e);
    forall n | n in after.flights ensures n in w.flights && !CanOverturn(w, n) && !CanOverturn(after, n) {
    }
  }

  // A closed email can change its status again if and only if such an attempt is in progress.
  lemma ClosedStatusChangesIff(w: World)
    requires !w.email.status.Pending?
    ensures (exists events :: Run(w, events).email.status != w.email.status) <==> exists n :: CanOverturn(w, n)
  {
    if n :| CanOverturn(w, n) {
      Overturned(w, n);
    } else {
      forall events ensures Run(w, events).email.status == w.email.status {
        SettledStaysSo(w, events);
      }
    }
  }

  // By finding no recipient, by failing for the fifth time, or by delivering after all.
  lemma Overturned(w: World, n: nat)
    requires !w.email.status.Pending? && CanOverturn(w, n)
    ensures exists events :: Run(w, events).email.status != w.email.status
  {
    var events :=
      if w.email.status.Failed? then [Accept(n), RecordSent(n, true)]
      else if w.flights[n].phase.Claiming? then [NoRecipient(n, true), HandleError(n)]
      else [RecordSent(n, false), HandleError(n)];
    RunTwo(w, events[0], events[1]);
    assert events == [events[0], events[1]];
    assert Run(w, events).email.status != w.email.status;
  }

  lemma RunTwo(w: World, first: Event, second: Event)
    ensures Run(w, [first, second]) == Apply(Apply(w, first), second)
  {
    assert [first, second][..1] == [first] && [first][..0] == [];
    assert Run(w, [first]) == Apply(w, first);
  }

  /* ----- One cycle of the job ----- */

  // How one attempt ends, when nothing overlaps it: no account, an error, or the mail is out.
  datatype Answer = NoAccount | Error | Delivered

  // Claimed at `now`, an error handled at `end`.
  function Attempted(e: Email, answer: Answer, now: nat, end: nat): Email {
    var claimed := Claimed(e, now);
    match answer
    case NoAccount => MarkedFailed(claimed)
    case Delivered => MarkedSent(claimed)
    case Error => GivenUpOrRescheduled(claimed, claimed.attempts, end)
  }

  // The oldest due email; emails are listed by creation time.
  function NextDue(emails: seq<Email>, now: nat): (k: nat)
    ensures k <= |emails|
    ensures k < |emails| ==> Due(emails[k], now)
    ensures forall j :: 0 <= j < k ==> !Due(emails[j], now)
  {
    if emails == [] || Due(emails[0], now) then 0 else 1 + NextDue(emails[1..], now)
  }

  function Count(emails: seq<Email>, status: Status): nat
    decreases |emails|
  {
    if emails == [] then 0
    else Count(emails[..|emails| - 1], status) + if emails[|emails| - 1].status == status then 1 else 0
  }

  lemma {:induction false} CountUpdate(emails: seq<Email>, k: nat, e: Email, status: Status)
    requires k < |emails|
    ensures Count(emails[k := e], status) + (if emails[k].status == status then 1 else 0) ==
      Count(emails, status) + (if e.status == status then 1 else 0)
    decreases |emails|
  {
    var n := |emails| - 1;
    if k < n {
      CountUpdate(emails[..n], k, e, status);
      assert emails[k := e][..n] == emails[..n][k := e];
    } else {
      assert emails[k := e][..n] == emails[..n];
    }
  }

  // An email that was just tried is closed or not due for a minute.
  lemma TriedIsNotDue(e: Email, answer: Answer, now: nat, end: nat)
    ensures
      var after := Attempted(e, answer, now, end);
      after.attempts == e.attempts + 1 && (after.status.Pending? ==> after.due.Some? && after.due.value >= end + 60_000)
  {
    if answer.Error? && e.attempts + 1 < MAX_ATTEMPTS {
      assert RETRY_DELAYS_MS[0] == 60_000 && RETRY_DELAYS_MS[1] == 300_000 && RETRY_DELAYS_MS[2] == 1_800_000;
      assert Delay(e.attempts + 1) >= 60_000;
    }
  }

  // Untouched, or tried once at this time or later and not due again for a minute.
  predicate TriedOnce(before: Email, after: Email, since: nat) {
    after == before ||
    (after.attempts == before.attempts + 1 &&
      (after.status.Pending? ==> after.due.Some? && after.due.value >= since + 60_000))
  }

  class Outbox {
    var emails: seq<Email>

    constructor (emails: seq<Email>)
      ensures this.emails == emails
    {
      this.emails := emails;
    }

    // Takes one due email through an attempt.
    method Deliver(k: nat, answer: Answer, now: nat, end: nat) returns (outcome: Status)
      requires k < |emails| && Due(emails[k], now)
      modifies this
      ensures emails == old(emails)[k := Attempted(old(emails)[k], answer, now, end)]
      ensures outcome == emails[k].status
      ensures forall s ::
        Count(emails, s) == Count(old(emails), s) + (if s == outcome then 1 else 0) - if s.Pending? then 1 else 0
    {
      var after := Attempted(emails[k], answer, now, end);
      forall s
        ensures Count(emails[k := after], s) ==
          Count(emails, s) + (if s == after.status then 1 else 0) - if s.Pending? then 1 else 0
      {
        CountUpdate(emails, k, after, s);
      }
      emails := emails[k := after];
      outcome := after.status;
    }

    // One cycle. clock and ends: when it claims each email it takes and when it is done with it; answers:
    // what happens to it. The counters are the changes it made, it stops early only when nothing is due,
    // and no email is tried twice in a cycle that takes less than a minute.
    method RunEmailOutbox(clock: seq<nat>, ends: seq<nat>, answers: seq<Answer>) returns (sent: nat, retried: nat,
        failed: nat)
      requires |clock| == |ends| == |answers| == MAX_EMAILS_PER_CYCLE
      requires forall i :: 0 <= i < |clock| ==> clock[0] <= clock[i] <= ends[i]
      modifies this
      ensures |emails| == |old(emails)|
      ensures Count(emails, Sent) == Count(old(emails), Sent) + sent
      ensures Count(emails, Failed) == Count(old(emails), Failed) + failed
      ensures Count(emails, Pending) == Count(old(emails), Pending) - sent - failed
      ensures sent + retried + failed <= MAX_EMAILS_PER_CYCLE
      ensures sent + retried + failed < MAX_EMAILS_PER_CYCLE ==>
        forall j :: 0 <= j < |emails| ==> !Due(emails[j], clock[sent + retried + failed])
      ensures (forall i :: 0 <= i < |clock| ==> clock[i] < clock[0] + 60_000) ==>
        forall j :: 0 <= j < |emails| ==> TriedOnce(old(emails)[j], emails[j], clock[0])
    {
      sent, retried, failed := 0, 0, 0;
      ghost var quick := forall i :: 0 <= i < |clock| ==> clock[i] < clock[0] + 60_000;
      for i := 0 to MAX_EMAILS_PER_CYCLE
        invariant |emails| == |old(emails)|
        invariant sent + retried + failed == i
        invariant Count(emails, Sent) == Count(old(emails), Sent) + sent
        invariant Count(emails, Failed) == Count(old(emails), Failed) + failed
        invariant Count(emails, Pending) == Count(old(emails), Pending) - sent - failed
        invariant quick ==> forall j :: 0 <= j < |emails| ==> TriedOnce(old(emails)[j], emails[j], clock[0])
      {
        var k := NextDue(emails, clock[i]);
        if k == |emails| { return; }
        TriedIsNotDue(emails[k], answers[i], clock[i], ends[i]);
        var outcome := Deliver(k, answers[i], clock[i], ends[i]);
        match outcome {
          case Sent => sent := sent + 1;
          case Failed => failed := failed + 1;
          case Pending => retried := retried + 1;
        }
      }
    }
  }
}
