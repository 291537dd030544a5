/** The queue, with one message per fixed ID, and the reaper that reconciles the job documents
    with it. */
module Reaper {
  import opened UploadJob

  // The fixed queue ID of a job's stage.
  datatype MessageId = MessageId(job: nat, stage: Stage)

  datatype MessageState = Waiting | Delayed | Active | Prioritized | WaitingChildren | Finished | Exhausted

  predicate Alive(m: MessageState) {
    !m.Finished? && !m.Exhausted?
  }

  predicate Live(queue: map<MessageId, MessageState>, id: MessageId) {
    id in queue && Alive(queue[id])
  }

  const STALE_LIMIT := 200

  // Pending since before `since`.
  predicate StalePending(j: Job, updated: nat, st: Stage, since: nat) {
    At(j, st).status.Pending? && updated < since
  }

  predicate Distinct(ids: seq<nat>) {
    forall i, j :: 0 <= i < j < |ids| ==> ids[i] != ids[j]
  }

  // The jobs after one loop over the selected ones: those that have used up their attempts fail.
  function Reconciled(j: Job, st: Stage, selected: bool, max: nat): Job {
    if selected && At(j, st).attempts >= max then FailUnowned(j, st).job else j
  }

  function ReconciledAll(jobs: map<nat, Job>, st: Stage, selected: seq<nat>, max: nat): map<nat, Job> {
    map id | id in jobs :: Reconciled(jobs[id], st, id in selected, max)
  }

  lemma ReconciledNext(jobs: map<nat, Job>, st: Stage, done: seq<nat>, id: nat, max: nat)
    requires id in jobs && id !in done
    ensures ReconciledAll(jobs, st, done, max).Keys == jobs.Keys
    ensures ReconciledAll(jobs, st, done, max)[id] == jobs[id]
    ensures ReconciledAll(jobs, st, done + [id], max) ==
      ReconciledAll(jobs, st, done, max)[id := Reconciled(jobs[id], st, true, max)]
  {
  }

  // A live message, or a dead one that could not be removed.
  predicate QueuedOrStuck(queue: map<MessageId, MessageState>, stuck: set<MessageId>, id: MessageId) {
    Live(queue, id) || (id in stuck && id in queue)
  }

  // The selected jobs that have attempts left are queued.
  ghost predicate AllQueued(jobs: map<nat, Job>, queue: map<MessageId, MessageState>, stuck: set<MessageId>, st: Stage,
      selected: seq<nat>, max: nat) {
    forall id :: id in selected && id in jobs && At(jobs[id], st).attempts < max ==>
      QueuedOrStuck(queue, stuck, MessageId(id, st))
  }

  ghost predicate LiveKept(before: map<MessageId, MessageState>, after: map<MessageId, MessageState>) {
    forall m :: Live(before, m) ==> m in after && after[m] == before[m]
  }

  lemma AllQueuedNext(jobs: map<nat, Job>, before: map<MessageId, MessageState>, after: map<MessageId, MessageState>,
      stuck: set<MessageId>, st: Stage, done: seq<nat>, id: nat, max: nat)
    requires AllQueued(jobs, before, stuck, st, done, max) && LiveKept(before, after) && KeysKept(before, after)
    requires id in jobs && At(jobs[id], st).attempts < max ==> QueuedOrStuck(after, stuck, MessageId(id, st))
    ensures AllQueued(jobs, after, stuck, st, done + [id], max)
  {
  }

  lemma KeptTwice(a: map<MessageId, MessageState>, b: map<MessageId, MessageState>, c: map<MessageId, MessageState>)
    requires LiveKept(a, b) && LiveKept(b, c) && KeysKept(a, b) && KeysKept(b, c)
    ensures LiveKept(a, c) && KeysKept(a, c)
  {
  }

  ghost predicate KeysKept(before: map<MessageId, MessageState>, after: map<MessageId, MessageState>) {
    before.Keys <= after.Keys
  }

  // Every one of these jobs has failed or has a live message, or its dead one could not be removed.
  ghost predicate Settled(jobs: map<nat, Job>, queue: map<MessageId, MessageState>, stuck: set<MessageId>, st: Stage,
      ids: seq<nat>) {
    forall id :: id in ids ==>
      id in jobs && (At(jobs[id], st).status.Failed? || QueuedOrStuck(queue, stuck, MessageId(id, st)))
  }

  ghost predicate AllOpen(jobs: map<nat, Job>, st: Stage, ids: seq<nat>) {
    forall id :: id in ids ==> id in jobs && (At(jobs[id], st).status.Pending? || At(jobs[id], st).status.Processing?)
  }

  lemma OpenJobsSettle(jobs: map<nat, Job>, queue: map<MessageId, MessageState>, stuck: set<MessageId>, st: Stage,
      ids: seq<nat>, max: nat)
    requires AllOpen(jobs, st, ids) && AllQueued(jobs, queue, stuck, st, ids, max)
    ensures Settled(ReconciledAll(jobs, st, ids, max), queue, stuck, st, ids)
  {
  }

  // The other stage's loop unsettles nothing.
  lemma StaysSettled(jobs: map<nat, Job>, before: map<MessageId, MessageState>, after: map<MessageId, MessageState>,
      stuck: set<MessageId>, st: Stage, ids: seq<nat>, other: Stage, others: seq<nat>, max: nat)
    requires Settled(jobs, before, stuck, st, ids) && other != st && LiveKept(before, after) && KeysKept(before, after)
    ensures Settled(ReconciledAll(jobs, other, others, max), after, stuck, st, ids)
  {
  }

  class Reconciler {
    var jobs: map<nat, Job>
    var updatedAt: map<nat, nat>
    var queue: map<MessageId, MessageState>
    const max: nat

    constructor (jobs: map<nat, Job>, updatedAt: map<nat, nat>, queue: map<MessageId, MessageState>, max: nat)
      ensures this.jobs == jobs && this.updatedAt == updatedAt && this.queue == queue && this.max == max
    {
      this.jobs, this.updatedAt, this.queue, this.max := jobs, updatedAt, queue, max;
    }

    // ensureQueued (worker) and addUnderFixedId (backend): exactly one live message afterwards. A
    // live one is left alone; a finished one is replaced, unless it came alive at that moment. Every
    // other error of the removal is taken for that too, so the message in `stuck` stays dead.
    method EnsureQueued(id: MessageId, stuck: set<MessageId>) returns (added: bool)
      modifies this`queue
      ensures Live(queue, id) || (id in stuck && id in old(queue) && queue == old(queue) && !added)
      ensures id in stuck && id in old(queue) ==> queue == old(queue)
      ensures added ==> !Live(old(queue), id)
      ensures Live(old(queue), id) ==> queue == old(queue)
      ensures queue.Keys == old(queue).Keys + {id}
      ensures forall other :: other in old(queue) && other != id ==> queue[other] == old(queue)[other]
    {
      if id in queue {
        if Alive(queue[id]) { return false; }
        if id in stuck { return false; }
        var becameActive := *;
        if becameActive {
          queue := queue[id := Active];
          return false;
        }
        queue := queue - {id};
      }
      queue := queue[id := Waiting];
      return true;
    }

    ghost predicate Stale(id: nat, st: Stage, since: nat)
      reads this
    {
      id in jobs && id in updatedAt && StalePending(jobs[id], updatedAt[id], st, since)
    }

    // findExpiredLease...: the jobs whose lease ran out, each once, in any order.
    method FindExpired(st: Stage, now: nat) returns (found: seq<nat>)
      ensures forall id :: id in found <==> id in jobs && Expired(jobs[id], st, now)
      ensures Distinct(found)
    {
      found := [];
      var todo := jobs.Keys;
      while todo != {}
        invariant todo <= jobs.Keys
        invariant forall id :: id in found <==> id in jobs.Keys - todo && Expired(jobs[id], st, now)
        invariant Distinct(found)
      {
        var id :| id in todo;
        todo := todo - {id};
        if Expired(jobs[id], st, now) { found := found + [id]; }
      }
    }

    // findStalePending...: the stale pending jobs, each once, in any order; all of them or as many as
    // the query's limit allows.
    method FindStale(st: Stage, since: nat) returns (found: seq<nat>)
      ensures forall id :: id in found ==> Stale(id, st, since)
      ensures |found| <= STALE_LIMIT
      ensures (forall id :: Stale(id, st, since) ==> id in found) || |found| == STALE_LIMIT
      ensures Distinct(found)
    {
      found := [];
      var todo := jobs.Keys * updatedAt.Keys;
      while todo != {} && |found| < STALE_LIMIT
        invariant todo <= jobs.Keys * updatedAt.Keys
        invariant forall id :: id in found <==> Stale(id, st, since) && id !in todo
        invariant |found| <= STALE_LIMIT
        invariant Distinct(found)
        decreases todo
      {
        var id :| id in todo;
        todo := todo - {id};
        if StalePending(jobs[id], updatedAt[id], st, since) { found := found + [id]; }
      }
    }

    // What one stage's loop goes through: the two queries' answers, which have no job in common.
    method Select(st: Stage, now: nat, since: nat) returns (expired: seq<nat>, stale: seq<nat>)
      ensures forall id :: id in expired <==> id in jobs && Expired(jobs[id], st, now)
      ensures forall id :: id in stale ==> Stale(id, st, since)
      ensures |stale| <= STALE_LIMIT
      ensures (forall id :: Stale(id, st, since) ==> id in stale) || |stale| == STALE_LIMIT
      ensures Distinct(expired + stale) && AllOpen(jobs, st, expired + stale)
    {
      expired := FindExpired(st, now);
      stale := FindStale(st, since);
      forall i, j | 0 <= i < |expired| && 0 <= j < |stale| ensures expired[i] != stale[j] {
        assert expired[i] in expired && stale[j] in stale;
      }
    }

    method ReconcileOne(st: Stage, id: nat, stuck: set<MessageId>)
      requires id in jobs
      modifies this`jobs, this`queue
      ensures jobs == old(jobs)[id := Reconciled(old(jobs)[id], st, true, max)]
      ensures At(old(jobs)[id], st).attempts < max ==> QueuedOrStuck(queue, stuck, MessageId(id, st))
      ensures LiveKept(old(queue), queue) && KeysKept(old(queue), queue)
      ensures queue.Keys == old(queue).Keys + if At(old(jobs)[id], st).attempts < max then {MessageId(id, st)} else {}
    {
      if At(jobs[id], st).attempts >= max {
        jobs := jobs[id := FailUnowned(jobs[id], st).job];
      } else {
        var _ := EnsureQueued(MessageId(id, st), stuck);
      }
    }

    // One of the cycle's two loops. Every selected job ends up failed (when its attempts are used
    // up) or with a live message; no other job, no other message and no live message changes.
    method Reconcile(st: Stage, selected: seq<nat>, stuck: set<MessageId>)
      requires Distinct(selected) && AllOpen(jobs, st, selected)
      modifies this`jobs, this`queue
      ensures jobs == ReconciledAll(old(jobs), st, selected, max)
      ensures Settled(jobs, queue, stuck, st, selected)
      ensures AllQueued(old(jobs), queue, stuck, st, selected, max)
      ensures LiveKept(old(queue), queue) && KeysKept(old(queue), queue)
      ensures forall m :: m in queue && m !in old(queue) ==>
        m.stage == st && m.job in selected && m.job in old(jobs) && At(old(jobs)[m.job], st).attempts < max
    {
      var i := 0;
      assert ReconciledAll(jobs, st, [], max) == jobs;
      assert AllQueued(jobs, queue, stuck, st, [], max) && LiveKept(queue, queue) && KeysKept(queue, queue);
      hide ReconciledAll, Reconciled, AllQueued, QueuedOrStuck, LiveKept, KeysKept, Settled;
      while i < |selected|
        invariant 0 <= i <= |selected|
        invariant jobs == ReconciledAll(old(jobs), st, selected[..i], max)
        invariant AllQueued(old(jobs), queue, stuck, st, selected[..i], max)
        invariant LiveKept(old(queue), queue) && KeysKept(old(queue), queue)
        invariant forall m :: m in queue && m !in old(queue) ==>
          m.stage == st && m.job in selected && m.job in old(jobs) && At(old(jobs)[m.job], st).attempts < max
      {
        var id := selected[i];
        assert id !in selected[..i];
        assert id in selected;
        assert selected[..i + 1] == selected[..i] + [id];
        ghost var before := queue;
        ReconciledNext(old(jobs), st, selected[..i], id, max);
        ReconcileOne(st, id, stuck);
        AllQueuedNext(old(jobs), before, queue, stuck, st, selected[..i], id, max);
        KeptTwice(old(queue), before, queue);
        i := i + 1;
      }
      assert selected[..|selected|] == selected;
      OpenJobsSettle(old(jobs), queue, stuck, st, selected, max);
    }

    // runLeaseReaper: the cycle selects every job whose lease ran out and every stale pending one, up
    // to the limit of that query; every job it selected ends up failed or with a live message, and
    // nothing else changes.
    method RunLeaseReaper(now: nat, since: nat, stuck: set<MessageId>)
      returns (expiredUploads: seq<nat>, expiredImages: seq<nat>, staleUploads: seq<nat>, staleImages: seq<nat>)
      modifies this`jobs, this`queue
      ensures forall id :: id in expiredUploads <==> id in old(jobs) && Expired(old(jobs)[id], Csv, now)
      ensures forall id :: id in expiredImages <==> id in old(jobs) && Expired(old(jobs)[id], Images, now)
      ensures forall id :: id in staleUploads ==> old(Stale(id, Csv, since))
      ensures forall id :: id in staleImages ==> old(Stale(id, Images, since))
      ensures (forall id :: old(Stale(id, Csv, since)) ==> id in staleUploads) || |staleUploads| == STALE_LIMIT
      ensures (forall id :: old(Stale(id, Images, since)) ==> id in staleImages) || |staleImages| == STALE_LIMIT
      ensures Settled(jobs, queue, stuck, Csv, expiredUploads + staleUploads)
      ensures Settled(jobs, queue, stuck, Images, expiredImages + staleImages)
      ensures jobs ==
        ReconciledAll(ReconciledAll(old(jobs), Csv, expiredUploads + staleUploads, max), Images,
        expiredImages + staleImages, max)
      ensures LiveKept(old(queue), queue)
      ensures forall m :: m in queue && m !in old(queue) ==>
        m.job in if m.stage.Csv? then expiredUploads + staleUploads else expiredImages + staleImages
    {
      expiredUploads, staleUploads := Select(Csv, now, since);
      expiredImages, staleImages := Select(Images, now, since);
      Reconcile(Csv, expiredUploads + staleUploads, stuck);
      ghost var between, messages := jobs, queue;
      OtherStageOpen(old(jobs), expiredUploads + staleUploads, expiredImages + staleImages, max);
      Reconcile(Images, expiredImages + staleImages, stuck);
      StaysSettled(between, messages, queue, stuck, Csv, expiredUploads + staleUploads, Images,
        expiredImages + staleImages, max);
    }
  }

  lemma OtherStageOpen(jobs: map<nat, Job>, uploads: seq<nat>, images: seq<nat>, max: nat)
    requires AllOpen(jobs, Images, images)
    ensures AllOpen(ReconciledAll(jobs, Csv, uploads, max), Images, images)
  {
  }
}
