/** Everything that can happen to one upload job: any number of worker attempts (healthy, slow,
    stale or crashed), the queue, the reaper and the dealer, in any interleaving. */
module JobProtocol {
  import opened Options
  import opened Import
  import opened UploadJob

  // An attempt that still lives: its stage, the attempt number it claimed, its in-memory counters, and
  // how many records its reader has gone past, from the start of the file. It need not hold the job any
  // more, nor know that: a shutdown hands back jobs that are still running in the same process, and
  // after an error some of a batch's writes may still be on their way.
  datatype Attempt = Attempt(stage: Stage, number: nat, counts: Counts, read: nat)

  // max: JOB_MAX_RECLAIM_ATTEMPTS; deliveries: how often the queue delivers one message at most.
  datatype Config = Config(max: nat, deliveries: nat, upload: Upload)

  // csvLeft and imagesLeft: deliveries left of the live queue message under the stage's fixed ID,
  // 0 when there is no live message. used: every owner token ever drawn. decisions: the stages some
  // reaper cycle has read as out of attempts and is going to fail. requeues: those it has read as
  // having attempts left and is going to queue.
  datatype State = State(
    job: Job,
    now: nat,
    used: set<nat>,
    attempts: map<nat, Attempt>,
    csvLeft: nat,
    imagesLeft: nat,
    decisions: multiset<Stage>,
    requeues: multiset<Stage>)

  // Gone: the attempt's process has died, or all its writes are over.
  datatype Event =
    | Tick(ms: nat)
    | Deliver(stage: Stage, owner: nat)
    | Settle(stage: Stage)
    | RenewBy(owner: nat)
    | BatchBy(owner: nat, size: nat, view: View)
    | CompleteBy(owner: nat)
    | CompletePhotosBy(owner: nat, report: Report)
    | PermanentError(owner: nat)
    | TransientError(owner: nat)
    | Shutdown(owner: nat)
    | Gone(owner: nat)
    | ReaperReads(stage: Stage)
    | ReaperFails(stage: Stage)
    | ReaperQueues(stage: Stage)
    | DealerAttach(queued: bool)
    | DealerRetry(stage: Stage, queued: bool)

  ghost predicate Sensible(c: Config) {
    0 < c.max && 0 < c.deliveries
  }

  function Left(s: State, st: Stage): nat {
    if st.Csv? then s.csvLeft else s.imagesLeft
  }

  // Adding a message under the fixed ID: a live one is left alone.
  function Queued(c: Config, left: nat): nat {
    if left > 0 then left else c.deliveries
  }

  // A job a reaper cycle may select: its lease ran out, or it has been pending (for long).
  predicate Selected(s: State, st: Stage) {
    Expired(s.job, st, s.now) || At(s.job, st).status.Pending?
  }

  // The counters after the next batch, whatever the attempt found in the stores: the reader's
  // cumulative count, and the lengths of the lists the batch was split into.
  function NextCounts(c: Config, a: Attempt, size: nat, view: View): (r: Counts)
    requires a.read <= |c.upload.file|
    ensures r.processed == BatchEnd(c.upload, a.read, size)
    ensures r.valid + r.rejected + r.duplicate ==
      a.counts.valid + a.counts.rejected + a.counts.duplicate + r.processed - a.read
    ensures r.valid >= a.counts.valid && r.rejected >= a.counts.rejected && r.duplicate >= a.counts.duplicate
  {
    var e := BatchEnd(c.upload, a.read, size);
    var rows := c.upload.file[a.read..e];
    SplitCountsEveryRecord(rows, FIRST_ROW + a.read, view);
    Tally(a.counts, e, SplitOf(rows, FIRST_ROW + a.read, view))
  }

  // The attempt making the step, if an attempt makes it.
  function Actor(e: Event): Option<nat> {
    match e
    case RenewBy(o) => Some(o)
    case BatchBy(o, _, _) => Some(o)
    case CompleteBy(o) => Some(o)
    case CompletePhotosBy(o, _) => Some(o)
    case PermanentError(o) => Some(o)
    case TransientError(o) => Some(o)
    case Shutdown(o) => Some(o)
    case Gone(o) => Some(o)
    case _ => None
  }

  predicate Enabled(c: Config, s: State, e: Event) {
    && (Actor(e).Some? ==> Actor(e).value in s.attempts)
    && match e
       case Deliver(st, o) => Left(s, st) > 0 && o !in s.used
       case BatchBy(o, size, _) => s.attempts[o].stage.Csv? && 0 < size && s.attempts[o].read < |c.upload.file|
       case CompleteBy(o) => s.attempts[o].stage.Csv? && s.attempts[o].read == |c.upload.file|
       case CompletePhotosBy(o, _) => s.attempts[o].stage.Images?
       case ReaperReads(st) => Selected(s, st)
       case ReaperFails(st) => st in s.decisions
       case ReaperQueues(st) => st in s.requeues
       case _ => true
  }

  // What a step does to each part of the state. First the document:
  function JobAfter(c: Config, s: State, e: Event): Job
    requires Enabled(c, s, e)
  {
    match e
    case Deliver(st, o) => Claim(s.job, st, s.now, o).job
    case RenewBy(o) => Renew(s.job, s.attempts[o].stage, s.now, o).job
    case BatchBy(o, size, view) => Checkpoint(s.job, s.now, o, NextCounts(c, s.attempts[o], size, view)).job
    case CompleteBy(o) => CompleteCsv(s.job, o, s.attempts[o].counts).job
    case CompletePhotosBy(o, report) => CompleteImages(s.job, o, report).job
    case PermanentError(o) => FailOwned(s.job, s.attempts[o].stage, o).job
    case TransientError(o) =>
      if s.attempts[o].number < c.max then HandBack(s.job, s.attempts[o].stage, o).job
        else FailOwned(s.job, s.attempts[o].stage, o).job
    case Shutdown(o) => HandBack(s.job, s.attempts[o].stage, o).job
    case ReaperFails(st) => FailUnowned(s.job, st).job
    case DealerAttach(_) => AttachZip(s.job).job
    case DealerRetry(st, _) => Retry(s.job, st).job
    case _ => s.job
  }

  // The attempts: a claim that matches starts one; one that completes, or whose checkpoint or
  // completion does not match, stops with nothing left to write.
  function AttemptsAfter(c: Config, s: State, e: Event): map<nat, Attempt>
    requires Enabled(c, s, e)
  {
    match e
    case Deliver(st, o) =>
      if Claimable(s.job, st, s.now)
      then s.attempts[o := Attempt(st, At(s.job, st).attempts + 1, s.job.counts, s.job.counts.processed)]
      else s.attempts
    case BatchBy(o, size, view) =>
      if HeldBy(s.job, Csv, o) then s.attempts[o := Batched(s.attempts[o], NextCounts(c, s.attempts[o], size, view))]
        else s.attempts - {o}
    case CompleteBy(o) => s.attempts - {o}
    case CompletePhotosBy(o, _) => s.attempts - {o}
    case Gone(o) => s.attempts - {o}
    case _ => s.attempts
  }

  function Batched(a: Attempt, counts: Counts): Attempt {
    a.(counts := counts, read := counts.processed)
  }

  // The deliveries left of a stage's message.
  function LeftAfter(c: Config, s: State, e: Event, st: Stage): nat
    requires Enabled(c, s, e)
  {
    var left := Left(s, st);
    match e
    case Deliver(t, _) => if t == st then left - 1 else left
    case Settle(t) => if t == st then 0 else left
    case ReaperQueues(t) => if t == st then Queued(c, left) else left
    case DealerAttach(queued) => if st.Images? && queued && AttachZip(s.job).matched then Queued(c, left) else left
    case DealerRetry(t, queued) => if t == st && queued && Retry(s.job, t).matched then Queued(c, left) else left
    case _ => left
  }

  function DecisionsAfter(c: Config, s: State, e: Event): multiset<Stage> {
    match e
    case ReaperReads(st) => if At(s.job, st).attempts >= c.max then s.decisions + multiset{st} else s.decisions
    case ReaperFails(st) => s.decisions - multiset{st}
    case _ => s.decisions
  }

  function RequeuesAfter(c: Config, s: State, e: Event): multiset<Stage> {
    match e
    case ReaperReads(st) => if At(s.job, st).attempts >= c.max then s.requeues else s.requeues + multiset{st}
    case ReaperQueues(st) => s.requeues - multiset{st}
    case _ => s.requeues
  }

  function Apply(c: Config, s: State, e: Event): State
    requires Enabled(c, s, e)
  {
    State(
      JobAfter(c, s, e),
      if e.Tick? then s.now + e.ms else s.now,
      if e.Deliver? then s.used + {e.owner} else s.used,
      AttemptsAfter(c, s, e),
      LeftAfter(c, s, e, Csv),
      LeftAfter(c, s, e, Images),
      DecisionsAfter(c, s, e),
      RequeuesAfter(c, s, e))
  }

  // The upload request creates the job and may or may not get its message queued.
  predicate Initial(c: Config, s: State) {
    s.job == NEW_JOB && s.used == {} && s.attempts == map[] && s.csvLeft in {0, c.deliveries} && s.imagesLeft == 0 &&
      s.decisions == s.requeues == multiset{}
  }

  ghost predicate Run(c: Config, states: seq<State>, events: seq<Event>) {
    && |states| == |events| + 1
    && Initial(c, states[0])
    && forall k :: 0 <= k < |events| ==>
      Enabled(c, states[k], events[k]) && states[k + 1] == Apply(c, states[k], events[k])
  }

  /* ----- Invariants ----- */

  // The shared lease slot: photos only after the CSV is done, never both stages at work, and a
  // lease exactly while one is.
  ghost predicate SlotOk(j: Job) {
    && !j.csv.status.Idle?
    && (!j.images.status.Idle? ==> Done(j.csv.status) && j.zip)
    && (j.owner.Some? <==> j.csv.status.Processing? || j.images.status.Processing?)
    && (j.expires.Some? <==> j.owner.Some?)
  }

  // Every record read so far is counted once.
  ghost predicate CountsOk(c: Config, j: Job) {
    && j.counts.valid + j.counts.rejected + j.counts.duplicate == j.counts.processed == j.total <= |c.upload.file|
    && (Done(j.csv.status) ==> j.counts.processed == |c.upload.file|)
    && (Done(j.csv.status) ==> (j.csv.status.CompletedWithErrors? <==> j.counts.rejected + j.counts.duplicate > 0))
  }

  // Every attempt, stale or not, has counted each record its reader went past once.
  ghost predicate AttemptsOk(c: Config, s: State) {
    forall o :: o in s.attempts ==> Consistent(c, s.attempts[o])
  }

  predicate Consistent(c: Config, a: Attempt) {
    a.counts.valid + a.counts.rejected + a.counts.duplicate == a.counts.processed == a.read <= |c.upload.file|
  }

  // The attempt the lease names works on the stage at hand, knows how often that was claimed, and
  // has the stored counters in memory.
  ghost predicate OwnerOk(c: Config, s: State) {
    && s.attempts.Keys <= s.used
    && (s.job.owner.Some? ==> s.job.owner.value in s.used)
    && (forall o :: o in s.attempts && s.job.owner == Some(o) ==>
      && At(s.job, s.attempts[o].stage).status.Processing?
      && At(s.job, s.attempts[o].stage).attempts == s.attempts[o].number
      && (s.attempts[o].stage.Csv? ==> s.attempts[o].counts == s.job.counts))
  }

  ghost predicate Inv(c: Config, s: State) {
    SlotOk(s.job) && CountsOk(c, s.job) && AttemptsOk(c, s) && OwnerOk(c, s)
  }

  lemma StepKeepsSlot(c: Config, s: State, e: Event)
    requires SlotOk(s.job) && Enabled(c, s, e)
    ensures SlotOk(Apply(c, s, e).job)
  {
    hide NextCounts, AttemptsAfter, LeftAfter, DecisionsAfter, RequeuesAfter;
  }

  lemma StepKeepsCounts(c: Config, s: State, e: Event)
    requires SlotOk(s.job) && CountsOk(c, s.job) && AttemptsOk(c, s) && Enabled(c, s, e)
    ensures CountsOk(c, Apply(c, s, e).job) && AttemptsOk(c, Apply(c, s, e))
  {
    DocumentKeepsCounts(c, s, e);
    hide NextCounts, JobAfter, LeftAfter, DecisionsAfter, RequeuesAfter;
  }

  lemma DocumentKeepsCounts(c: Config, s: State, e: Event)
    requires SlotOk(s.job) && CountsOk(c, s.job) && AttemptsOk(c, s) && Enabled(c, s, e)
    ensures CountsOk(c, JobAfter(c, s, e))
  {
    hide NextCounts;
  }

  lemma StepKeepsOwner(c: Config, s: State, e: Event)
    requires SlotOk(s.job) && OwnerOk(c, s) && Enabled(c, s, e)
    ensures OwnerOk(c, Apply(c, s, e))
  {
    hide NextCounts, LeftAfter, DecisionsAfter, RequeuesAfter;
  }

  // In every reachable state of every interleaving the invariants hold.
  lemma {:induction false} RunKeepsInv(c: Config, states: seq<State>, events: seq<Event>, k: nat)
    requires Sensible(c) && Run(c, states, events) && k < |states|
    ensures Inv(c, states[k])
  {
    if k > 0 {
      RunKeepsInv(c, states, events, k - 1);
      StepKeepsSlot(c, states[k - 1], events[k - 1]);
      StepKeepsCounts(c, states[k - 1], events[k - 1]);
      StepKeepsOwner(c, states[k - 1], events[k - 1]);
    }
  }

  /* ----- Main theorems ----- */

  // The shared lease slot, in every reachable state.
  lemma SharedLeaseSlot(c: Config, states: seq<State>, events: seq<Event>, k: nat)
    requires Sensible(c) && Run(c, states, events) && k < |states|
    ensures
      var j := states[k].job;
      && (!j.images.status.Idle? ==> Done(j.csv.status))
      && !(j.csv.status.Processing? && j.images.status.Processing?)
      && (j.owner.Some? <==> (j.csv.status.Processing? || j.images.status.Processing?))
      && (j.expires.Some? <==> j.owner.Some?)
  {
    RunKeepsInv(c, states, events, k);
  }

  // Counters: conserved in every state, and a completed job has counted every record.
  lemma CountersConserved(c: Config, states: seq<State>, events: seq<Event>, k: nat)
    requires Sensible(c) && Run(c, states, events) && k < |states|
    ensures
      var j := states[k].job;
      && j.counts.valid + j.counts.rejected + j.counts.duplicate == j.counts.processed == j.total
      && (Done(j.csv.status) ==> j.counts.processed == |c.upload.file|)
      && (j.csv.status.Completed? ==> j.counts.valid == |c.upload.file|)
  {
    RunKeepsInv(c, states, events, k);
  }

  predicate CountsGrow(a: Counts, b: Counts) {
    a.processed <= b.processed && a.valid <= b.valid && a.rejected <= b.rejected && a.duplicate <= b.duplicate
  }

  // No counter ever goes down over a run, whatever stale attempts try to write.
  lemma {:induction false} CountersNeverGoDown(c: Config, states: seq<State>, events: seq<Event>, i: nat, k: nat)
    requires Sensible(c) && Run(c, states, events) && i <= k < |states|
    ensures CountsGrow(states[i].job.counts, states[k].job.counts)
    decreases k
  {
    hide Apply, Enabled, Initial, SlotOk, CountsOk, AttemptsOk, OwnerOk;
    if i < k {
      CountersNeverGoDown(c, states, events, i, k - 1);
      RunKeepsInv(c, states, events, k - 1);
      StepGrowsCounts(c, states[k - 1], events[k - 1]);
    }
  }

  lemma StepGrowsCounts(c: Config, s: State, e: Event)
    requires SlotOk(s.job) && AttemptsOk(c, s) && OwnerOk(c, s) && Enabled(c, s, e)
    ensures CountsGrow(s.job.counts, Apply(c, s, e).job.counts)
  {
    hide NextCounts, AttemptsAfter, LeftAfter, DecisionsAfter, RequeuesAfter;
  }

  // Fencing, one step: an attempt that does not hold the lease changes nothing in the document,
  // and a token once drawn is never handed the lease again.
  lemma StepIsFenced(c: Config, s: State, e: Event, o: nat)
    requires OwnerOk(c, s) && Enabled(c, s, e)
    requires o in s.used && s.job.owner != Some(o)
    ensures o in Apply(c, s, e).used && Apply(c, s, e).job.owner != Some(o)
    ensures Actor(e) == Some(o) ==> Apply(c, s, e).job == s.job
  {
    hide NextCounts, AttemptsAfter, LeftAfter, DecisionsAfter, RequeuesAfter;
  }

  // Fencing, over any run: once an attempt has lost the lease (taken over, failed by the reaper,
  // handed back, or never granted) it never holds it again and none of its later writes lands.
  lemma {:induction false} LostForGood(c: Config, states: seq<State>, events: seq<Event>, i: nat, k: nat, o: nat)
    requires Sensible(c) && Run(c, states, events) && i <= k < |states|
    requires o in states[i].used && states[i].job.owner != Some(o)
    ensures o in states[k].used && states[k].job.owner != Some(o)
    ensures k < |events| && Actor(events[k]) == Some(o) ==> states[k + 1].job == states[k].job
    decreases k
  {
    hide Apply, Enabled, SlotOk, CountsOk, AttemptsOk;
    RunKeepsInv(c, states, events, k);
    if i < k {
      LostForGood(c, states, events, i, k - 1, o);
      RunKeepsInv(c, states, events, k - 1);
      StepIsFenced(c, states[k - 1], events[k - 1], o);
    }
    if k < |events| {
      StepIsFenced(c, states[k], events[k], o);
    }
  }

  // A step that leaves the lease with o and changes the document is a step of o.
  lemma OnlyOwnerWrites(c: Config, s: State, e: Event, o: nat)
    requires SlotOk(s.job) && OwnerOk(c, s) && Enabled(c, s, e)
    requires s.job.owner == Some(o) && Apply(c, s, e).job.owner == Some(o)
    ensures Apply(c, s, e).job != s.job ==> Actor(e) == Some(o)
  {
    hide NextCounts, AttemptsAfter, LeftAfter, DecisionsAfter, RequeuesAfter;
  }

  // Owner epochs: the states in which o holds the lease are consecutive, and inside that stretch
  // only o's own steps change the document.
  lemma OwnerEpoch(c: Config, states: seq<State>, events: seq<Event>, i: nat, k: nat, j: nat, o: nat)
    requires Sensible(c) && Run(c, states, events) && i <= k <= j < |states|
    requires states[i].job.owner == Some(o) && states[j].job.owner == Some(o)
    ensures states[k].job.owner == Some(o)
    ensures k < j && states[k + 1].job != states[k].job ==> Actor(events[k]) == Some(o)
  {
    StaysUsed(c, states, events, i, k, o);
    if states[k].job.owner != Some(o) {
      LostForGood(c, states, events, k, j, o);
    }
    if k < j {
      RunKeepsInv(c, states, events, k);
      if states[k + 1].job.owner != Some(o) {
        StaysUsed(c, states, events, i, k + 1, o);
        LostForGood(c, states, events, k + 1, j, o);
      }
      OnlyOwnerWrites(c, states[k], events[k], o);
    }
  }

  lemma {:induction false} StaysUsed(c: Config, states: seq<State>, events: seq<Event>, i: nat, k: nat, o: nat)
    requires Sensible(c) && Run(c, states, events) && i <= k < |states|
    requires states[i].job.owner == Some(o)
    ensures o in states[k].used
    decreases k
  {
    if i < k {
      StaysUsed(c, states, events, i, k - 1, o);
    } else {
      RunKeepsInv(c, states, events, i);
    }
  }

  // The dealer asks again: a retry, or a new zip for the photo stage.
  predicate AsksAgain(e: Event, st: Stage) {
    e == DealerRetry(st, true) || e == DealerRetry(st, false) || (st.Images? && e.DealerAttach?)
  }

  // A step that claims the stage.
  predicate ClaimsStage(c: Config, s: State, e: Event, st: Stage)
    requires Enabled(c, s, e)
  {
    e.Deliver? && e.stage == st && Claimable(s.job, st, s.now)
  }

  function ClaimsIn(c: Config, states: seq<State>, events: seq<Event>, i: nat, k: nat, st: Stage): nat
    requires i <= k < |states| && |states| == |events| + 1
    requires forall n :: 0 <= n < |events| ==> Enabled(c, states[n], events[n])
  {
    if i == k then 0
      else ClaimsIn(c, states, events, i, k - 1, st) + if ClaimsStage(c, states[k - 1], events[k - 1], st) then 1 else 0
  }

  // The counter really counts claims: between dealer requests it moves with them exactly.
  lemma {:induction false} AttemptsCountClaims(c: Config, states: seq<State>, events: seq<Event>, i: nat, k: nat,
      st: Stage)
    requires Sensible(c) && Run(c, states, events) && i <= k < |states|
    requires forall n :: i <= n < k ==> !AsksAgain(events[n], st)
    ensures At(states[k].job, st).attempts == At(states[i].job, st).attempts + ClaimsIn(c, states, events, i, k, st)
    decreases k
  {
    if i < k {
      AttemptsCountClaims(c, states, events, i, k - 1, st);
      StepCountsClaims(c, states[k - 1], events[k - 1], st);
    }
  }

  lemma StepCountsClaims(c: Config, s: State, e: Event, st: Stage)
    requires Enabled(c, s, e) && !AsksAgain(e, st)
    ensures At(Apply(c, s, e).job, st).attempts == At(s.job, st).attempts + if ClaimsStage(c, s, e, st) then 1 else 0
  {
    hide NextCounts, AttemptsAfter, LeftAfter, DecisionsAfter, RequeuesAfter;
  }

  function AtMost(p: nat, q: nat): nat { if q < p then q else p }

  // Claims made since the dealer last asked, and those that the live message and the pending requeues
  // can still cause, when a claim never finds more than p requeues pending. While more are, no attempt is
  // beyond those a reaper still queues the job for.
  ghost predicate BudgetOk(c: Config, s: State, p: nat, st: Stage) {
    Budget(c.max, c.deliveries, p, At(s.job, st).attempts, Left(s, st), s.requeues[st])
  }

  predicate Budget(max: nat, d: nat, p: nat, a: nat, left: nat, q: nat) {
    && left <= d
    && (q > p ==> a < max)
    && a + left + AtMost(p, q) * d < max + (p + 1) * d
  }

  // How a step can change the attempts, the deliveries left and the pending requeues of a stage: a
  // reaper decides to queue it, a requeue is carried out, a claim uses a delivery, a message is used or
  // lost, or the dealer asks.
  predicate Moves(max: nat, deliveries: nat, a: nat, left: nat, q: nat, a': nat, left': nat, q': nat) {
    || (q' == q + 1 && a' == a < max && left' == left)
    || (q' + 1 == q && a' == a && (left' == left || left' <= deliveries))
    || (q' == q && a' + left' <= a + left && left' <= left)
    || (q' == q && a' == 0 && (left' == left || left' <= deliveries))
  }

  lemma StepMoves(c: Config, s: State, e: Event, st: Stage)
    requires Enabled(c, s, e)
    ensures
      var t := Apply(c, s, e);
      && Moves(c.max, c.deliveries, At(s.job, st).attempts, Left(s, st), s.requeues[st], At(t.job, st).attempts,
        Left(t, st), t.requeues[st])
      && (At(t.job, st).attempts > At(s.job, st).attempts ==> ClaimsStage(c, s, e, st))
  {
    if AsksAgain(e, st) {
      AskingMoves(c, s, e, st);
    } else {
      StepCountsClaims(c, s, e, st);
      hide JobAfter, NextCounts, AttemptsAfter, DecisionsAfter, Claimable;
    }
  }

  lemma AskingMoves(c: Config, s: State, e: Event, st: Stage)
    requires Enabled(c, s, e) && AsksAgain(e, st)
    ensures
      var t := Apply(c, s, e);
      && t.requeues == s.requeues
      && (At(t.job, st).attempts == 0 ||
        (At(t.job, st).attempts == At(s.job, st).attempts && Left(t, st) == Left(s, st)))
      && (Left(t, st) == Left(s, st) || Left(t, st) <= c.deliveries)
  {
    hide NextCounts, AttemptsAfter, DecisionsAfter;
  }

  lemma MovesKeepBudget(max: nat, d: nat, p: nat, a: nat, left: nat, q: nat, a': nat, left': nat, q': nat)
    requires 0 < max && Moves(max, d, a, left, q, a', left', q') && (a' > a ==> q <= p)
    requires Budget(max, d, p, a, left, q)
    ensures Budget(max, d, p, a', left', q')
  {
    assert (p + 1) * d == p * d + d;
    Times(AtMost(p, q'), p, d);
    if q' < p { assert q == q' + 1 ==> q * d == q' * d + d; }
  }

  lemma Times(q: nat, p: nat, d: nat)
    requires q <= p
    ensures q * d <= p * d
  {
  }

  lemma StepKeepsBudget(c: Config, s: State, e: Event, p: nat, st: Stage)
    requires Sensible(c) && BudgetOk(c, s, p, st) && Enabled(c, s, e)
    requires ClaimsStage(c, s, e, st) ==> s.requeues[st] <= p
    ensures BudgetOk(c, Apply(c, s, e), p, st)
  {
    var t := Apply(c, s, e);
    StepMoves(c, s, e, st);
    hide Apply, Enabled, Moves, Budget, ClaimsStage;
    MovesKeepBudget(c.max, c.deliveries, p, At(s.job, st).attempts, Left(s, st), s.requeues[st],
      At(t.job, st).attempts, Left(t, st), t.requeues[st]);
  }

  // Bounded work: the attempt counter counts the claims since the dealer last asked, and never passes
  // MAX + D - 1 and D more for each reaper cycle a claim can find between its read and its requeue. When
  // each requeue follows its read before the next claim, that is none.
  lemma {:induction false} ClaimsBounded(c: Config, states: seq<State>, events: seq<Event>, k: nat, p: nat, st: Stage)
    requires Sensible(c) && Run(c, states, events) && k < |states|
    requires forall n :: 0 <= n < k && ClaimsStage(c, states[n], events[n], st) ==> states[n].requeues[st] <= p
    ensures At(states[k].job, st).attempts <= c.max - 1 + (p + 1) * c.deliveries
    ensures BudgetOk(c, states[k], p, st)
  {
    hide Apply, Enabled, Initial, BudgetOk, ClaimsStage;
    if k == 0 {
      StartsInBudget(c, states[0], p, st);
    } else {
      ClaimsBounded(c, states, events, k - 1, p, st);
      StepKeepsBudget(c, states[k - 1], events[k - 1], p, st);
    }
    BudgetBounds(c, states[k], p, st);
  }

  lemma StartsInBudget(c: Config, s: State, p: nat, st: Stage)
    requires Sensible(c) && Initial(c, s)
    ensures BudgetOk(c, s, p, st)
  {
    assert (p + 1) * c.deliveries == p * c.deliveries + c.deliveries;
    assert 0 <= p * c.deliveries;
  }

  lemma BudgetBounds(c: Config, s: State, p: nat, st: Stage)
    requires BudgetOk(c, s, p, st)
    ensures At(s.job, st).attempts <= c.max - 1 + (p + 1) * c.deliveries
  {
    assert 0 <= AtMost(p, s.requeues[st]) * c.deliveries;
  }

  // A run that has come to a CSV stage which was claimed `a` times and waits for its lease to run out,
  // with this many deliveries left and requeues pending; no claim so far found more than p pending.
  ghost predicate ComesTo(c: Config, states: seq<State>, events: seq<Event>, p: nat, a: nat, left: nat, q: nat) {
    && Run(c, states, events) && FewPending(c, states, events, p)
    && var s := states[|events|];
       s.job.csv.attempts == a && s.csvLeft == left && s.requeues[Csv] == q && Waits(s) &&
         forall o :: o in s.used ==> o < |events|
  }

  ghost predicate FewPending(c: Config, states: seq<State>, events: seq<Event>, p: nat)
    requires Run(c, states, events)
  {
    forall n :: 0 <= n < |events| && ClaimsStage(c, states[n], events[n], Csv) ==> states[n].requeues[Csv] <= p
  }

  predicate Waits(s: State) {
    s.job.csv.status.Pending? || (s.job.csv.status.Processing? && s.job.expires.Some?)
  }

  lemma RunGoesOn(c: Config, states: seq<State>, events: seq<Event>, p: nat, e: Event)
    requires Run(c, states, events) && FewPending(c, states, events, p) && Enabled(c, states[|events|], e)
    requires ClaimsStage(c, states[|events|], e, Csv) ==> states[|events|].requeues[Csv] <= p
    ensures Run(c, states + [Apply(c, states[|events|], e)], events + [e])
    ensures FewPending(c, states + [Apply(c, states[|events|], e)], events + [e], p)
  {
    hide Apply, Enabled, Initial, ClaimsStage;
    var states', events' := states + [Apply(c, states[|events|], e)], events + [e];
    forall n | 0 <= n < |events'|
      ensures Enabled(c, states'[n], events'[n]) && states'[n + 1] == Apply(c, states'[n], events'[n])
      ensures ClaimsStage(c, states'[n], events'[n], Csv) ==> states'[n].requeues[Csv] <= p
    {
      if n < |events| { assert states'[n] == states[n] && events'[n] == events[n] && states'[n + 1] == states[n + 1]; }
    }
  }

  // One step further, given what it does to the state.
  lemma StepComesTo(c: Config, states: seq<State>, events: seq<Event>, p: nat, a: nat, left: nat, q: nat, e: Event,
      a': nat, left': nat, q': nat) returns (states': seq<State>, events': seq<Event>)
    requires ComesTo(c, states, events, p, a, left, q) && Enabled(c, states[|events|], e)
    requires ClaimsStage(c, states[|events|], e, Csv) ==> q <= p
    requires e.Deliver? ==> e.owner == |events|
    requires
      var t := Apply(c, states[|events|], e);
      t.job.csv.attempts == a' && t.csvLeft == left' && t.requeues[Csv] == q' && Waits(t)
    ensures ComesTo(c, states', events', p, a', left', q')
    ensures states'[|events'|] == Apply(c, states[|events|], e)
  {
    var s := states[|events|];
    states', events' := states + [Apply(c, s, e)], events + [e];
    RunGoesOn(c, states, events, p, e);
    assert Apply(c, s, e).used == if e.Deliver? then s.used + {e.owner} else s.used;
    hide Apply, Enabled, Initial, ClaimsStage, Run, FewPending;
  }

  predicate WaitsLong(s: State) {
    s.job.csv.status.Pending? || Expired(s.job, Csv, s.now)
  }

  lemma LeaseRunsOut(c: Config, states: seq<State>, events: seq<Event>, p: nat, a: nat, left: nat, q: nat)
    returns (states': seq<State>, events': seq<Event>)
    requires ComesTo(c, states, events, p, a, left, q)
    ensures ComesTo(c, states', events', p, a, left, q) && WaitsLong(states'[|events'|])
  {
    var s := states[|events|];
    var e := Tick(if s.job.expires.Some? then s.job.expires.value + 1 else 0);
    hide Run, FewPending;
    states', events' := StepComesTo(c, states, events, p, a, left, q, e, a, left, q);
  }

  lemma ClaimedAgain(c: Config, states: seq<State>, events: seq<Event>, p: nat, a: nat, left: nat, q: nat)
    returns (states': seq<State>, events': seq<Event>)
    requires ComesTo(c, states, events, p, a, left, q) && 0 < left && q <= p
    ensures ComesTo(c, states', events', p, a + 1, left - 1, q)
  {
    states', events' := LeaseRunsOut(c, states, events, p, a, left, q);
    hide Run, FewPending, NextCounts, AttemptsAfter;
    states', events' := StepComesTo(c, states', events', p, a, left, q, Deliver(Csv, |events'|), a + 1, left - 1, q);
  }

  lemma ReadAgain(c: Config, states: seq<State>, events: seq<Event>, p: nat, a: nat, left: nat, q: nat)
    returns (states': seq<State>, events': seq<Event>)
    requires ComesTo(c, states, events, p, a, left, q) && a < c.max
    ensures ComesTo(c, states', events', p, a, left, q + 1)
  {
    states', events' := LeaseRunsOut(c, states, events, p, a, left, q);
    hide Run, FewPending, NextCounts, AttemptsAfter;
    states', events' := StepComesTo(c, states', events', p, a, left, q, ReaperReads(Csv), a, left, q + 1);
  }

  lemma QueuedAgain(c: Config, states: seq<State>, events: seq<Event>, p: nat, a: nat, q: nat)
    returns (states': seq<State>, events': seq<Event>)
    requires ComesTo(c, states, events, p, a, 0, q) && 0 < q
    ensures ComesTo(c, states', events', p, a, c.deliveries, q - 1)
  {
    hide Run, FewPending, NextCounts, AttemptsAfter;
    states', events' := StepComesTo(c, states, events, p, a, 0, q, ReaperQueues(Csv), a, c.deliveries, q - 1);
  }

  lemma Settled(c: Config, states: seq<State>, events: seq<Event>, p: nat, a: nat, left: nat, q: nat)
    returns (states': seq<State>, events': seq<Event>)
    requires ComesTo(c, states, events, p, a, left, q)
    ensures ComesTo(c, states', events', p, a, 0, q)
  {
    hide Run, FewPending, NextCounts, AttemptsAfter;
    states', events' := StepComesTo(c, states, events, p, a, left, q, Settle(Csv), a, 0, q);
  }

  // A message's deliveries, each of them claimed.
  lemma {:induction false} AllClaimed(c: Config, states: seq<State>, events: seq<Event>, p: nat, a: nat, left: nat,
      q: nat) returns (states': seq<State>, events': seq<Event>)
    requires ComesTo(c, states, events, p, a, left, q) && q <= p
    ensures ComesTo(c, states', events', p, a + left, 0, q)
    decreases left
  {
    hide ComesTo;
    states', events' := states, events;
    if left > 0 {
      states', events' := ClaimedAgain(c, states, events, p, a, left, q);
      states', events' := AllClaimed(c, states', events', p, a + 1, left - 1, q);
    }
  }

  // Up to MAX - 1 attempts, with a new message whenever there is none.
  lemma {:induction false} ComesToLimit(c: Config, p: nat, a: nat)
    returns (states: seq<State>, events: seq<Event>, left: nat)
    requires Sensible(c) && a < c.max
    ensures ComesTo(c, states, events, p, a, left, 0)
  {
    if a == 0 {
      states, events, left := [State(NEW_JOB, 0, {}, map[], c.deliveries, 0, multiset{}, multiset{})], [], c.deliveries;
    } else {
      hide ComesTo;
      states, events, left := ComesToLimit(c, p, a - 1);
      if left == 0 {
        states, events := ReadAgain(c, states, events, p, a - 1, 0, 0);
        states, events := QueuedAgain(c, states, events, p, a - 1, 1);
        left := c.deliveries;
      }
      states, events := ClaimedAgain(c, states, events, p, a - 1, left, 0);
      left := left - 1;
    }
  }

  lemma {:induction false} ReadTimes(c: Config, states: seq<State>, events: seq<Event>, p: nat, a: nat, q: nat, n: nat)
    returns (states': seq<State>, events': seq<Event>)
    requires ComesTo(c, states, events, p, a, 0, q) && a < c.max
    ensures ComesTo(c, states', events', p, a, 0, q + n)
    decreases n
  {
    hide ComesTo;
    states', events' := states, events;
    if n > 0 {
      states', events' := ReadAgain(c, states, events, p, a, 0, q);
      states', events' := ReadTimes(c, states', events', p, a, q + 1, n - 1);
    }
  }

  // Each pending requeue brings a message whose deliveries are all claimed.
  lemma {:induction false} AllRequeued(c: Config, states: seq<State>, events: seq<Event>, p: nat, a: nat, q: nat)
    returns (states': seq<State>, events': seq<Event>)
    requires ComesTo(c, states, events, p, a, 0, q) && q <= p + 1
    ensures ComesTo(c, states', events', p, a + q * c.deliveries, 0, 0)
    decreases q
  {
    hide ComesTo;
    states', events' := states, events;
    if q > 0 {
      states', events' := QueuedAgain(c, states, events, p, a, q);
      states', events' := AllClaimed(c, states', events', p, a, c.deliveries, q - 1);
      states', events' := AllRequeued(c, states', events', p, a + c.deliveries, q - 1);
      assert a + c.deliveries + (q - 1) * c.deliveries == a + q * c.deliveries;
    }
  }

  // And the bound is reached, for every p.
  lemma BoundIsReached(c: Config, p: nat)
    requires Sensible(c)
    ensures exists states: seq<State>, events: seq<Event> ::
      && Run(c, states, events) && FewPending(c, states, events, p)
      && states[|events|].job.csv.attempts == c.max - 1 + (p + 1) * c.deliveries
  {
    var states, events, left := ComesToLimit(c, p, c.max - 1);
    states, events := Settled(c, states, events, p, c.max - 1, left, 0);
    states, events := ReadTimes(c, states, events, p, c.max - 1, 0, p + 1);
    states, events := AllRequeued(c, states, events, p, c.max - 1, p + 1);
    hide Run, FewPending;
  }

  // The deliveries a stage can still get without the dealer: those of its live message and those of the
  // pending requeues.
  function Possible(c: Config, s: State, st: Stage): nat {
    Left(s, st) + s.requeues[st] * c.deliveries
  }

  // Once a stage has used its attempts, nothing but the dealer adds to the deliveries that are possible:
  // each claim uses one of them up, and with none left the stage is never worked on again.
  lemma {:induction false} ExhaustedDrains(c: Config, states: seq<State>, events: seq<Event>, i: nat, k: nat, st: Stage)
    requires Sensible(c) && Run(c, states, events) && i <= k < |states|
    requires At(states[i].job, st).attempts >= c.max
    requires forall n :: i <= n < k ==> !AsksAgain(events[n], st)
    ensures Possible(c, states[k], st) + ClaimsIn(c, states, events, i, k, st) <= Possible(c, states[i], st)
    ensures Possible(c, states[i], st) == 0 && !At(states[i].job, st).status.Processing? ==>
      !At(states[k].job, st).status.Processing?
    decreases k
  {
    hide Apply, Enabled, Possible;
    if i < k {
      ExhaustedDrains(c, states, events, i, k - 1, st);
      AttemptsCountClaims(c, states, events, i, k - 1, st);
      StepDrains(c, states[k - 1], events[k - 1], st);
    }
  }

  lemma StepDrains(c: Config, s: State, e: Event, st: Stage)
    requires Sensible(c) && Enabled(c, s, e) && !AsksAgain(e, st)
    requires At(s.job, st).attempts >= c.max
    ensures Possible(c, Apply(c, s, e), st) + (if ClaimsStage(c, s, e, st) then 1 else 0) <= Possible(c, s, st)
    ensures Possible(c, s, st) == 0 && !At(s.job, st).status.Processing? ==>
      !At(Apply(c, s, e).job, st).status.Processing?
  {
    var t := Apply(c, s, e);
    StepUses(c, s, e, st);
    UsesDrain(c.deliveries, Left(s, st), s.requeues[st], Left(t, st), t.requeues[st],
      if ClaimsStage(c, s, e, st) then 1 else 0);
    hide Apply, Enabled, ClaimsStage, AsksAgain, Left, Claimable;
  }

  lemma UsesDrain(d: nat, left: nat, q: nat, left': nat, q': nat, claims: nat)
    requires 0 < d
    requires (q' == q && left' + claims <= left) || (q' + 1 == q && claims == 0 && left' <= left + d)
    ensures left' + q' * d + claims <= left + q * d
    ensures left + q * d == 0 ==> left == 0
  {
    assert q' + 1 == q ==> q * d == q' * d + d;
    assert 0 <= q * d;
  }

  lemma StepUses(c: Config, s: State, e: Event, st: Stage)
    requires Sensible(c) && Enabled(c, s, e) && !AsksAgain(e, st) && At(s.job, st).attempts >= c.max
    ensures
      var t := Apply(c, s, e);
      || (t.requeues[st] == s.requeues[st] && Left(t, st) + (if ClaimsStage(c, s, e, st) then 1 else 0) <= Left(s, st))
      || (t.requeues[st] + 1 == s.requeues[st] && !ClaimsStage(c, s, e, st) &&
        Left(t, st) <= Left(s, st) + c.deliveries)
    ensures
      !At(s.job, st).status.Processing? && At(Apply(c, s, e).job, st).status.Processing? ==> Left(s, st) > 0
  {
    hide NextCounts, AttemptsAfter, DecisionsAfter;
  }

  // What can happen to a stage that has used its attempts: the worker completes it or fails it (a
  // temporary error fails it too), the reaper fails it and never decides to queue it again; only a
  // shutdown hands it back, and only a delivery still possible claims it.
  lemma ExhaustedEnds(c: Config, states: seq<State>, events: seq<Event>, k: nat, st: Stage)
    requires Sensible(c) && Run(c, states, events) && k < |events| && !AsksAgain(events[k], st)
    requires At(states[k].job, st).attempts >= c.max
    requires At(states[k].job, st).status.Pending? || At(states[k].job, st).status.Processing?
    ensures Ends(c, states[k], events[k], st)
    ensures RequeuesAfter(c, states[k], events[k])[st] <= states[k].requeues[st]
  {
    RunInvAt(c, states, events, k);
    hide Ends, SlotOk, CountsOk, OwnerOk, Apply;
    ExhaustedStep(c, states[k], events[k], st);
  }

  predicate Ends(c: Config, s: State, e: Event, st: Stage)
    requires Enabled(c, s, e)
  {
    var before, after := At(s.job, st).status, At(Apply(c, s, e).job, st).status;
    && (after == before || Done(after) || after.Failed? || (before.Processing? && after.Pending? && e.Shutdown?) ||
      (before.Pending? && after.Processing? && e.Deliver?))
    && (e == ReaperFails(st) ==> after.Failed?)
    && (e.TransientError? && s.job.owner == Some(e.owner) ==> after.Failed?)
  }

  lemma ExhaustedStep(c: Config, s: State, e: Event, st: Stage)
    requires SlotOk(s.job) && OwnerOk(c, s) && Enabled(c, s, e) && !AsksAgain(e, st)
    requires At(s.job, st).attempts >= c.max
    requires At(s.job, st).status.Pending? || At(s.job, st).status.Processing?
    ensures Ends(c, s, e, st)
  {
    hide NextCounts, AttemptsAfter, LeftAfter, DecisionsAfter, RequeuesAfter;
  }

  /* ----- Leases and time ----- */

  // The last successful write under the lease is at most JOB_LEASE_MS old.
  predicate Healthy(s: State) {
    s.job.expires.Some? && s.now <= s.job.expires.value
  }

  // Every write by the owner moves the end of the lease to JOB_LEASE_MS from now; nothing else
  // does while the lease stays with that owner.
  lemma LeaseFollowsWrites(c: Config, s: State, e: Event, o: nat)
    requires SlotOk(s.job) && OwnerOk(c, s) && Enabled(c, s, e)
    requires s.job.owner == Some(o) && Apply(c, s, e).job.owner == Some(o)
    ensures Apply(c, s, e).job.expires ==
      if (e.RenewBy? || e.BatchBy?) && Actor(e) == Some(o) then Some(s.now + JOB_LEASE_MS) else s.job.expires
  {
    hide NextCounts, AttemptsAfter, LeftAfter, DecisionsAfter, RequeuesAfter;
  }

  // An owner whose lease has not run out can only lose it by its own step or to a reaper that has
  // already decided to fail the stage at work; such a decision does take it away. While the lease
  // has not run out no claim matches and no reaper comes to that decision.
  lemma HealthyOwnerKept(c: Config, s: State, e: Event, o: nat)
    requires SlotOk(s.job) && OwnerOk(c, s) && Enabled(c, s, e)
    requires s.job.owner == Some(o) && Healthy(s) && Actor(e) != Some(o)
    ensures forall st :: At(s.job, st).status.Processing? ==>
      (Apply(c, s, e).job.owner != Some(o) <==> e == ReaperFails(st))
    ensures forall st :: At(s.job, st).status.Processing? ==> !Claimable(s.job, st, s.now) && e != ReaperReads(st)
  {
    hide NextCounts, AttemptsAfter, LeftAfter, DecisionsAfter, RequeuesAfter;
  }

  // A step by which o writes the lease: its claim, a renewal or a checkpoint while it holds it.
  predicate WritesLease(c: Config, s: State, e: Event, o: nat)
    requires Enabled(c, s, e)
  {
    (e.Deliver? && e.owner == o && Claimable(s.job, e.stage, s.now)) ||
      ((e.RenewBy? || e.BatchBy?) && e.owner == o && s.job.owner == Some(o))
  }

  // The time of o's last write before state k; 0 when there was none.
  function LastWrite(c: Config, states: seq<State>, events: seq<Event>, k: nat, o: nat): nat
    requires k < |states| && |states| == |events| + 1
    requires forall n :: 0 <= n < |events| ==> Enabled(c, states[n], events[n])
  {
    if k == 0 then 0
    else if WritesLease(c, states[k - 1], events[k - 1], o) then states[k - 1].now
    else LastWrite(c, states, events, k - 1, o)
  }

  lemma WriteSetsLease(c: Config, s: State, e: Event, o: nat)
    requires SlotOk(s.job) && OwnerOk(c, s) && Enabled(c, s, e) && Apply(c, s, e).job.owner == Some(o)
    ensures WritesLease(c, s, e, o) ==> Apply(c, s, e).job.expires == Some(s.now + JOB_LEASE_MS)
    ensures !WritesLease(c, s, e, o) ==> s.job.owner == Some(o) && Apply(c, s, e).job.expires == s.job.expires
  {
    if s.job.owner == Some(o) {
      LeaseFollowsWrites(c, s, e, o);
      HolderDoesNotClaim(c, s, e, o);
      hide Apply, SlotOk, OwnerOk;
    } else {
      NewHolderClaims(c, s, e, o);
      hide Apply, SlotOk, OwnerOk;
    }
  }

  lemma HolderDoesNotClaim(c: Config, s: State, e: Event, o: nat)
    requires SlotOk(s.job) && OwnerOk(c, s) && Enabled(c, s, e) && s.job.owner == Some(o)
    ensures !(e.Deliver? && e.owner == o)
    ensures e.RenewBy? || e.BatchBy? ==> Actor(e) == Some(e.owner)
  {
  }

  lemma NewHolderClaims(c: Config, s: State, e: Event, o: nat)
    requires Enabled(c, s, e) && s.job.owner != Some(o) && Apply(c, s, e).job.owner == Some(o)
    ensures WritesLease(c, s, e, o) && Apply(c, s, e).job.expires == Some(s.now + JOB_LEASE_MS)
  {
    hide NextCounts, AttemptsAfter, LeftAfter, DecisionsAfter, RequeuesAfter;
  }

  // In every run the lease ends JOB_LEASE_MS after its owner's last write.
  lemma {:induction false} LeaseEndsAfterLastWrite(c: Config, states: seq<State>, events: seq<Event>, k: nat, o: nat)
    requires Sensible(c) && Run(c, states, events) && k < |states| && states[k].job.owner == Some(o)
    ensures states[k].job.expires == Some(LastWrite(c, states, events, k, o) + JOB_LEASE_MS)
  {
    hide Apply, Enabled, Inv, WritesLease;
    if k > 0 {
      RunInvAt(c, states, events, k - 1);
      WriteSetsLease(c, states[k - 1], events[k - 1], o);
      if !WritesLease(c, states[k - 1], events[k - 1], o) {
        LeaseEndsAfterLastWrite(c, states, events, k - 1, o);
      }
    }
  }

  lemma RunInvAt(c: Config, states: seq<State>, events: seq<Event>, k: nat)
    requires Sensible(c) && Run(c, states, events) && k < |states|
    ensures SlotOk(states[k].job) && CountsOk(c, states[k].job) && OwnerOk(c, states[k])
  {
    RunKeepsInv(c, states, events, k);
  }

  // At each moment from state i on at which o holds the lease, its last write is at most JOB_LEASE_MS old.
  ghost predicate WritesInTime(c: Config, states: seq<State>, events: seq<Event>, i: nat, k: nat, o: nat)
    requires Run(c, states, events) && i <= k < |states|
  {
    forall n :: i <= n <= k && states[n].job.owner == Some(o) ==>
      states[n].now <= LastWrite(c, states, events, n, o) + JOB_LEASE_MS
  }

  // o's own step gives the lease up.
  ghost predicate GivesUp(states: seq<State>, events: seq<Event>, i: nat, k: nat, o: nat)
    requires |states| == |events| + 1 && i <= k < |states|
  {
    exists n :: i <= n < k && Actor(events[n]) == Some(o) && states[n].job.owner == Some(o) &&
      states[n + 1].job.owner != Some(o)
  }

  // Timed lease safety: an owner whose writes are never more than JOB_LEASE_MS apart, and against
  // whose stage no reaper had decided before, keeps the job until a step of its own gives it up. No
  // attempt takes it over, and no reaper comes to decide against it.
  lemma {:induction false} RenewedLeaseIsKept(c: Config, states: seq<State>, events: seq<Event>, i: nat, k: nat,
      o: nat, st: Stage)
    requires Sensible(c) && Run(c, states, events) && i <= k < |states|
    requires states[i].job.owner == Some(o) && At(states[i].job, st).status.Processing? && st !in states[i].decisions
    requires WritesInTime(c, states, events, i, k, o)
    ensures states[k].job.owner == Some(o) || GivesUp(states, events, i, k, o)
    ensures states[k].job.owner == Some(o) ==>
      && At(states[k].job, st).status.Processing? && st !in states[k].decisions
      && states[k].job.expires == Some(LastWrite(c, states, events, k, o) + JOB_LEASE_MS)
    decreases k
  {
    if states[k].job.owner == Some(o) {
      LeaseEndsAfterLastWrite(c, states, events, k, o);
    }
    if i < k {
      RenewedLeaseIsKept(c, states, events, i, k - 1, o, st);
      OwnerStretch(c, states, events, i, k, o);
      if states[k - 1].job.owner == Some(o) {
        RunInvAt(c, states, events, k - 1);
        KeptStep(c, states[k - 1], events[k - 1], o, st);
      }
    }
  }

  // Held at i and at k means held in between, so a lease once lost is not held at k.
  lemma OwnerStretch(c: Config, states: seq<State>, events: seq<Event>, i: nat, k: nat, o: nat)
    requires Sensible(c) && Run(c, states, events) && i < k < |states|
    requires states[i].job.owner == Some(o)
    ensures states[k].job.owner == Some(o) ==> states[k - 1].job.owner == Some(o)
  {
    hide Apply, Enabled;
    if states[k].job.owner == Some(o) {
      OwnerEpoch(c, states, events, i, k - 1, k, o);
    }
  }

  lemma OwnStepKeepsDecisions(c: Config, s: State, e: Event)
    requires Actor(e).Some?
    ensures DecisionsAfter(c, s, e) == s.decisions
  {
  }

  lemma KeptStep(c: Config, s: State, e: Event, o: nat, st: Stage)
    requires SlotOk(s.job) && OwnerOk(c, s) && Enabled(c, s, e)
    requires s.job.owner == Some(o) && Healthy(s) && At(s.job, st).status.Processing? && st !in s.decisions
    ensures Apply(c, s, e).job.owner == Some(o) || Actor(e) == Some(o)
    ensures Apply(c, s, e).job.owner == Some(o) ==>
      At(Apply(c, s, e).job, st).status.Processing? && st !in Apply(c, s, e).decisions
  {
    hide NextCounts, JobAfter, AttemptsAfter, LeftAfter, SlotOk, OwnerOk, Selected, Claimable;
    if Actor(e) != Some(o) {
      HealthyOwnerKept(c, s, e, o);
    } else {
      OwnStepKeepsDecisions(c, s, e);
    }
    if Apply(c, s, e).job.owner == Some(o) {
      StageStep(c, s, e, o, st);
    }
  }

  // So the one thing that can take the job from an owner that writes in time is a decision to fail
  // its stage that some reaper had reached before, at every moment of the owner's stretch so far.
  lemma OnlyEarlierDecisionsEvict(c: Config, states: seq<State>, events: seq<Event>, i: nat, k: nat, o: nat, st: Stage)
    requires Sensible(c) && Run(c, states, events) && i <= k < |events|
    requires states[i].job.owner == Some(o) && At(states[i].job, st).status.Processing?
    requires states[k].job.owner == Some(o) && WritesInTime(c, states, events, i, k, o)
    requires states[k + 1].job.owner != Some(o) && Actor(events[k]) != Some(o)
    ensures events[k] == ReaperFails(st) && st in states[i].decisions
  {
    hide NextCounts, JobAfter, AttemptsAfter, LeftAfter, DecisionsAfter, SlotOk, CountsOk, OwnerOk, Selected;
    if st !in states[i].decisions {
      RenewedLeaseIsKept(c, states, events, i, k, o, st);
    }
    RunInvAt(c, states, events, i);
    RunInvAt(c, states, events, k);
    LeaseEndsAfterLastWrite(c, states, events, k, o);
    HealthyOwnerKept(c, states[k], events[k], o);
    StageKept(c, states, events, i, k, o, st);
  }

  lemma {:induction false} StageKept(c: Config, states: seq<State>, events: seq<Event>, i: nat, k: nat, o: nat,
      st: Stage)
    requires Sensible(c) && Run(c, states, events) && i <= k < |states|
    requires states[i].job.owner == Some(o) && states[k].job.owner == Some(o) &&
      At(states[i].job, st).status.Processing?
    ensures At(states[k].job, st).status.Processing?
    decreases k
  {
    hide Apply, Enabled, Inv, SlotOk, CountsOk, OwnerOk;
    if i < k {
      OwnerStretch(c, states, events, i, k, o);
      StageKept(c, states, events, i, k - 1, o, st);
      RunInvAt(c, states, events, k - 1);
      StageStep(c, states[k - 1], events[k - 1], o, st);
    }
  }

  lemma StageStep(c: Config, s: State, e: Event, o: nat, st: Stage)
    requires SlotOk(s.job) && OwnerOk(c, s) && Enabled(c, s, e)
    requires s.job.owner == Some(o) && Apply(c, s, e).job.owner == Some(o) && At(s.job, st).status.Processing?
    ensures At(Apply(c, s, e).job, st).status.Processing?
  {
    hide NextCounts, AttemptsAfter, LeftAfter, DecisionsAfter, RequeuesAfter;
  }

  // A silent owner loses the job: once its lease has run out, the next delivery takes it over.
  lemma SilentOwnerIsReplaced(c: Config, s: State, st: Stage, next: nat)
    requires SlotOk(s.job) && At(s.job, st).status.Processing? && !Healthy(s)
    requires Left(s, st) > 0 && next !in s.used
    ensures
      var t := Apply(c, s, Deliver(st, next));
      && t.job.owner == Some(next) && next in t.attempts
      && t.attempts[next].counts == s.job.counts && t.attempts[next].read == s.job.counts.processed
      && t.job.expires == Some(s.now + JOB_LEASE_MS)
  {
    hide NextCounts, LeftAfter, DecisionsAfter, RequeuesAfter;
  }

  // It does happen: the reaper's failure update checks only the status, so a decision taken on an
  // expired lease can end the lease of an attempt that claimed meanwhile.
  lemma StaleDecisionEvictsHealthyOwner(c: Config)
    requires Sensible(c) && c.max == 1 && c.deliveries == 2
    ensures exists states: seq<State>, events: seq<Event> ::
      && Run(c, states, events) && |events| == 5 && events[2] == ReaperReads(Csv) && events[4] == ReaperFails(Csv)
      && states[4].job.owner == Some(1) && Healthy(states[4])
      && states[5].job.csv.status.Failed? && 1 in states[5].attempts
  {
    hide Apply, Enabled;
    var states := seq(6, k requires 0 <= k < 6 => StaleState(k));
    var events := seq(5, k requires 0 <= k < 5 => StaleEvent(k));
    forall k: nat | k < 5 ensures Enabled(c, states[k], events[k]) && states[k + 1] == Apply(c, states[k], events[k]) {
      StaleStep(c, k);
    }
    assert Run(c, states, events);
  }

  // The first attempt stops writing, its lease runs out, a reaper reads that, the second attempt
  // claims, and the reaper goes through with what it read.
  function StaleEvent(k: nat): Event
    requires k < 5
  {
    if k == 0 then Deliver(Csv, 0)
    else if k == 1 then Tick(JOB_LEASE_MS + 1)
    else if k == 2 then ReaperReads(Csv)
    else if k == 3 then Deliver(Csv, 1)
    else ReaperFails(Csv)
  }

  function StaleState(k: nat): State {
    var first, second := Attempt(Csv, 1, NOTHING_PROCESSED, 0), Attempt(Csv, 2, NOTHING_PROCESSED, 0);
    var claimed := NEW_JOB.(csv := Progress(Processing, 1), owner := Some(0), expires := Some(JOB_LEASE_MS));
    var late := JOB_LEASE_MS + 1;
    var taken := NEW_JOB.(csv := Progress(Processing, 2), owner := Some(1), expires := Some(late + JOB_LEASE_MS));
    if k == 0 then State(NEW_JOB, 0, {}, map[], 2, 0, multiset{}, multiset{})
    else if k == 1 then State(claimed, 0, {0}, map[0 := first], 1, 0, multiset{}, multiset{})
    else if k == 2 then State(claimed, late, {0}, map[0 := first], 1, 0, multiset{}, multiset{})
    else if k == 3 then State(claimed, late, {0}, map[0 := first], 1, 0, multiset{Csv}, multiset{})
    else if k == 4 then State(taken, late, {0, 1}, map[0 := first, 1 := second], 0, 0, multiset{Csv}, multiset{})
    else State(Unlease(Move(taken, Csv, Failed)), late, {0, 1}, map[0 := first, 1 := second], 0, 0, multiset{},
      multiset{})
  }

  lemma StaleStep(c: Config, k: nat)
    requires k < 5 && c.max == 1
    ensures Enabled(c, StaleState(k), StaleEvent(k)) && Apply(c, StaleState(k), StaleEvent(k)) == StaleState(k + 1)
  {
    hide NextCounts, Renew, Checkpoint, CompleteCsv, CompleteImages, FailOwned, HandBack, AttachZip, Retry;
    if k == 1 {
      assert StaleEvent(k) == Tick(JOB_LEASE_MS + 1);
    } else if k == 2 {
      assert StaleEvent(k) == ReaperReads(Csv);
    } else if k == 4 {
      assert StaleEvent(k) == ReaperFails(Csv);
    } else {
      hide FailUnowned;
      assert StaleEvent(k) == Deliver(Csv, if k == 0 then 0 else 1);
      assert AttemptsAfter(c, StaleState(k), StaleEvent(k)) == StaleState(k + 1).attempts;
    }
  }
}
