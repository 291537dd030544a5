/** The photo stage as the job protocol lets it run, from one zip on: attempts that read the listings,
    attach folder by folder, die or are handed back anywhere, and complete the stage. The photos are
    those of one clean run however attempts overlap; the objects and the report are when they do not. */
module JobPhotos {
  import opened Options
  import opened ListingStore
  import J = JobImport
  import P = JobProtocol
  import U = UploadJob
  import Z = ZipPhotos

  // What an attempt keeps in memory: the listings as it read them, the folders it is done with, and what
  // it has counted.
  datatype Reading = Reading(read: map<Plate, Z.Album>, at: nat, report: Z.Report)

  datatype World = World(state: P.State, store: Z.Store, memory: map<nat, Reading>)

  // The zip: its folders, and the settings for them.
  datatype Zip = Zip(config: Z.Config, folders: seq<Z.Folder>)

  // Uploads: some objects of the folder at hand are put, and nothing is attached.
  datatype Step =
    | Protocol(event: P.Event)
    | ReadListings(owner: nat)
    | Folder(owner: nat)
    | Uploads(owner: nat, landed: set<Z.ObjectKey>)
    | Finish(owner: nat)

  predicate AtFolder(z: Zip, w: World, o: nat) {
    o in w.memory && o in w.state.attempts && w.memory[o].at < |z.folders|
  }

  predicate AtEnd(z: Zip, w: World, o: nat) {
    o in w.memory && o in w.state.attempts && w.state.attempts[o].stage.Images? && w.memory[o].at == |z.folders|
  }

  predicate Possible(c: P.Config, z: Zip, w: World, x: Step) {
    match x
    case Protocol(e) => !e.CompletePhotosBy? && P.Enabled(c, w.state, e)
    case ReadListings(o) => o in w.state.attempts && w.state.attempts[o].stage.Images? && o !in w.memory
    case Folder(o) => AtFolder(z, w, o)
    case Uploads(o, _) => AtFolder(z, w, o)
    case Finish(o) => AtEnd(z, w, o)
  }

  function Reported(r: Z.Report): U.Report {
    U.Report(r.imagesAttached, r.matchedListings, r.unmatchedFolders)
  }

  // A step of the job protocol, with the memory of the attempts that still live.
  function Stepped(c: P.Config, w: World, e: P.Event): World
    requires P.Enabled(c, w.state, e)
  {
    var next := P.Apply(c, w.state, e);
    World(next, w.store, map o | o in w.memory && o in next.attempts :: w.memory[o])
  }

  function Attached(z: Zip, w: World, o: nat): World
    requires AtFolder(z, w, o)
  {
    var r := w.memory[o];
    var p := Z.AttachFolder(z.config, r.read, Z.Progress(w.store, r.report), z.folders[r.at]);
    w.(store := p.store, memory := w.memory[o := Reading(r.read, r.at + 1, p.report)])
  }

  function Uploaded(z: Zip, w: World, o: nat, landed: set<Z.ObjectKey>): World
    requires AtFolder(z, w, o)
  {
    var r, f := w.memory[o], z.folders[w.memory[o].at];
    if f.plate !in r.read then w
    else
      var a := r.read[f.plate];
      w.(store := w.store.(objects := Z.Upload(w.store.objects,
        Z.PutKeys(z.config, a, Z.ToAttach(z.config, a, f.entries)) * landed)))
  }

  function After(c: P.Config, z: Zip, w: World, x: Step): World
    requires Possible(c, z, w, x)
  {
    match x
    case Protocol(e) => Stepped(c, w, e)
    case ReadListings(o) => w.(memory := w.memory[o := Reading(w.store.albums, 0, Z.Report(0, 0, []))])
    case Folder(o) => Attached(z, w, o)
    case Uploads(o, landed) => Uploaded(z, w, o, landed)
    case Finish(o) => Stepped(c, w, P.CompletePhotosBy(o, Reported(w.memory[o].report)))
  }

  // Nothing is claimed while an attempt of the job still lives.
  predicate Undisturbed(w: World, x: Step) {
    x.Protocol? && x.event.Deliver? && U.Claimable(w.state.job, x.event.stage, w.state.now) ==>
      w.state.attempts == map[]
  }

  // A run from the moment a zip has been attached to a job, while no other zip is.
  ghost predicate Run(c: P.Config, z: Zip, s0: Z.Store, worlds: seq<World>, steps: seq<Step>) {
    && |worlds| == |steps| + 1
    && J.JobOk(c, worlds[0].state) && worlds[0].state.job.images.status.Pending? && worlds[0].state.attempts == map[]
    && worlds[0].store == s0 && worlds[0].memory == map[]
    && forall k :: 0 <= k < |steps| ==>
      Possible(c, z, worlds[k], steps[k]) && !(steps[k].Protocol? && steps[k].event.DealerAttach?) &&
        worlds[k + 1] == After(c, z, worlds[k], steps[k])
  }

  /* ----- What the store holds ----- */

  // An attempt that has done the first folders of those that found `before` attached.
  ghost predicate Underway(z: Zip, s0: Z.Store, store: Z.Store, r: Reading, before: set<nat>, done: set<nat>,
      landed: set<Z.ObjectKey>) {
    && r.at <= |z.folders| && r.read.Keys == s0.albums.Keys
    && Z.Along(z.config, s0, z.folders, Z.Store(r.read, map[]), r.at, Z.Progress(store, r.report), done, landed)
    && done == before + Z.Upto(r.at)
    && r.report == Z.ReportAfter(z.config, s0.albums, z.folders[..r.at], before)
  }

  // What a completed stage has left: the photos and objects of one clean run of the stage on the listings
  // as they were, and a report with the same folders matched and as many photos or more.
  ghost predicate Complete(z: Zip, s0: Z.Store, store: Z.Store, report: U.Report) {
    var clean := Z.Attempt(z.config, s0, z.folders);
    && store == clean.store
    && report.(attached := clean.report.imagesAttached) == Reported(clean.report)
    && report.attached >= clean.report.imagesAttached
    && (Z.NoneRepeated(z.config, s0.albums, z.folders) ==> report == Reported(clean.report))
  }

  ghost predicate Inv(c: P.Config, z: Zip, s0: Z.Store, w: World, before: set<nat>, done: set<nat>,
      landed: set<Z.ObjectKey>) {
    && J.JobOk(c, w.state) && J.Alone(w.state) && !w.state.job.images.status.Idle?
    && Z.Mixed(z.config, s0, z.folders, w.store, done, landed)
    && (forall o :: o in w.memory ==>
      o in w.state.attempts && Underway(z, s0, w.store, w.memory[o], before, done, landed))
    && (U.Done(w.state.job.images.status) ==> w.state.attempts == map[] && Complete(z, s0, w.store, w.state.job.report))
  }

  lemma StepKeepsJob(c: P.Config, s: P.State, e: P.Event)
    requires J.JobOk(c, s) && P.Enabled(c, s, e)
    ensures J.JobOk(c, P.Apply(c, s, e))
  {
    P.StepKeepsSlot(c, s, e);
    P.StepKeepsCounts(c, s, e);
    P.StepKeepsOwner(c, s, e);
  }

  // Once there is a zip the stage never goes back to having none, and without another zip only a
  // completion by the holder makes it done or writes its report.
  lemma StageSteps(c: P.Config, s: P.State, e: P.Event)
    requires J.JobOk(c, s) && P.Enabled(c, s, e) && !s.job.images.status.Idle? && !e.DealerAttach?
    ensures
      var after := P.Apply(c, s, e).job;
      && !after.images.status.Idle?
      && (U.Done(after.images.status) ==>
        U.Done(s.job.images.status) || (e.CompletePhotosBy? && U.HeldBy(s.job, U.Images, e.owner)))
      && (after.report == s.job.report || (e.CompletePhotosBy? && U.HeldBy(s.job, U.Images, e.owner)))
      && (U.Done(s.job.images.status) ==> U.Done(after.images.status))
    ensures U.Done(s.job.images.status) && s.attempts == map[] ==> P.Apply(c, s, e).attempts == map[]
  {
    hide P.NextCounts, P.LeftAfter, P.DecisionsAfter, P.RequeuesAfter, P.CountsOk, P.AttemptsOk;
  }

  lemma FinishedBy(c: P.Config, s: P.State, o: nat, report: U.Report)
    requires J.JobOk(c, s) && J.Alone(s) && P.Enabled(c, s, P.CompletePhotosBy(o, report))
    ensures
      var after := P.Apply(c, s, P.CompletePhotosBy(o, report));
      && after.attempts == map[]
      && (U.HeldBy(s.job, U.Images, o) ==> after.job.report == report)
  {
    hide P.NextCounts, P.LeftAfter, P.DecisionsAfter, P.RequeuesAfter, P.CountsOk, P.AttemptsOk, P.SlotOk, P.OwnerOk;
  }

  lemma FinishedJob(c: P.Config, s: P.State, e: P.Event)
    requires J.JobOk(c, s) && J.Alone(s) && P.Enabled(c, s, e) && e.CompletePhotosBy? && !s.job.images.status.Idle?
    ensures
      var after := P.Apply(c, s, e);
      && J.JobOk(c, after) && J.Alone(after) && after.attempts == map[] && !after.job.images.status.Idle?
      && (U.Done(after.job.images.status) ==>
        after.job.report == e.report || (U.Done(s.job.images.status) && after.job.report == s.job.report))
  {
    hide P.Apply, P.Enabled, J.JobOk, J.Alone;
    StepKeepsJob(c, s, e);
    J.StepKeepsAlone(c, s, e);
    StageSteps(c, s, e);
    FinishedBy(c, s, e.owner, e.report);
  }

  // An attempt that is through with every folder.
  lemma ThroughMeansComplete(z: Zip, s0: Z.Store, store: Z.Store, r: Reading, before: set<nat>, done: set<nat>,
      landed: set<Z.ObjectKey>)
    requires Z.DistinctPlates(z.folders) && Underway(z, s0, store, r, before, done, landed) && r.at == |z.folders|
    ensures Complete(z, s0, store, Reported(r.report))
  {
    var n := |z.folders|;
    assert z.folders[..n] == z.folders;
    assert done == Z.Upto(n);
    AllLanded(z, s0, landed, n);
    assert landed == Z.AllPuts(z.config, s0.albums, z.folders);
    Z.RetriesEqualOneCleanRun(z.config, s0, z.folders, []);
    CleanIsMixed(z, s0);
    Z.MixedDeterminesStore(z.config, s0, z.folders, store, Z.Attempt(z.config, s0, z.folders).store);
    Z.ReportAfterIs(z.config, s0.albums, z.folders, before);
  }

  lemma CleanIsMixed(z: Zip, s0: Z.Store)
    requires Z.DistinctPlates(z.folders)
    ensures Z.Mixed(z.config, s0, z.folders, Z.Attempt(z.config, s0, z.folders).store, Z.Upto(|z.folders|),
      Z.AllPuts(z.config, s0.albums, z.folders))
  {
    assert s0.objects == Z.Upload(s0.objects, {});
    Z.CleanRunFrom(z.config, s0, z.folders, s0, {}, {});
  }

  // With every folder attached all their objects are there.
  lemma {:induction false} AllLanded(z: Zip, s0: Z.Store, landed: set<Z.ObjectKey>, n: nat)
    requires n <= |z.folders| && forall i :: 0 <= i < n ==> Z.Puts(z.config, s0.albums, z.folders[i]) <= landed
    ensures Z.AllPuts(z.config, s0.albums, z.folders[..n]) <= landed
  {
    if n > 0 {
      AllLanded(z, s0, landed, n - 1);
      assert z.folders[..n][..n - 1] == z.folders[..n - 1];
    }
  }

  lemma ProtocolKeeps(c: P.Config, z: Zip, s0: Z.Store, w: World, before: set<nat>, done: set<nat>,
      landed: set<Z.ObjectKey>, e: P.Event)
    requires Inv(c, z, s0, w, before, done, landed) && Possible(c, z, w, Protocol(e)) && Undisturbed(w, Protocol(e)) &&
      !e.DealerAttach?
    ensures Inv(c, z, s0, Stepped(c, w, e), before, done, landed)
  {
    StepKeepsJob(c, w.state, e);
    J.StepKeepsAlone(c, w.state, e);
    StageSteps(c, w.state, e);
    J.AttemptsStay(c, w.state, e);
    hide P.Apply, P.Enabled, J.JobOk, J.Alone, Underway, Complete, Z.Mixed;
  }

  lemma ReadKeeps(c: P.Config, z: Zip, s0: Z.Store, w: World, before: set<nat>, done: set<nat>,
      landed: set<Z.ObjectKey>, o: nat)
    requires Inv(c, z, s0, w, before, done, landed) && Possible(c, z, w, ReadListings(o))
    ensures Inv(c, z, s0, After(c, z, w, ReadListings(o)), done, done, landed)
  {
    var r := Reading(w.store.albums, 0, Z.Report(0, 0, []));
    assert done + Z.Upto(0) == done;
    assert Underway(z, s0, w.store, r, done, done, landed);
    assert w.memory.Keys <= w.state.attempts.Keys <= {o};
    hide J.JobOk, Underway, Complete, Z.Mixed;
  }

  lemma FolderKeeps(c: P.Config, z: Zip, s0: Z.Store, w: World, before: set<nat>, done: set<nat>,
      landed: set<Z.ObjectKey>, o: nat)
    returns (done': set<nat>, landed': set<Z.ObjectKey>)
    requires Z.DistinctPlates(z.folders) && Inv(c, z, s0, w, before, done, landed) && AtFolder(z, w, o)
    ensures Inv(c, z, s0, Attached(z, w, o), before, done', landed')
  {
    hide J.JobOk, Complete, Z.Mixed, Z.AttachFolder, Z.Along, Z.ReportAfter, Z.Puts, Z.DistinctPlates;
    var r := w.memory[o];
    assert r.at < |z.folders|;
    done', landed' := done + {r.at}, landed + Z.Puts(z.config, s0.albums, z.folders[r.at]);
    FolderUnderway(z, s0, w.store, r, before, done, landed);
    hide Underway;
    forall other | other in w.memory ensures other == o {
      assert other in w.state.attempts;
    }
  }

  lemma FolderUnderway(z: Zip, s0: Z.Store, store: Z.Store, r: Reading, before: set<nat>, done: set<nat>,
      landed: set<Z.ObjectKey>)
    requires Z.DistinctPlates(z.folders) && Underway(z, s0, store, r, before, done, landed) && r.at < |z.folders|
    ensures
      var p := Z.AttachFolder(z.config, r.read, Z.Progress(store, r.report), z.folders[r.at]);
      var done', landed' := done + {r.at}, landed + Z.Puts(z.config, s0.albums, z.folders[r.at]);
      && Underway(z, s0, p.store, Reading(r.read, r.at + 1, p.report), before, done', landed')
      && Z.Mixed(z.config, s0, z.folders, p.store, done', landed')
  {
    var n := r.at;
    Z.AlongStep(z.config, s0, z.folders, Z.Store(r.read, map[]), n, Z.Progress(store, r.report), done, landed);
    assert z.folders[..n + 1][..n] == z.folders[..n];
    assert done + {n} == before + Z.Upto(n + 1);
    assert n in done <==> n in before;
    hide Z.AttachFolder, Z.Recounted, Z.Puts, Z.Mixed;
  }

  lemma UploadsKeep(c: P.Config, z: Zip, s0: Z.Store, w: World, before: set<nat>, done: set<nat>,
      landed: set<Z.ObjectKey>, o: nat, more: set<Z.ObjectKey>)
    returns (landed': set<Z.ObjectKey>)
    requires Z.DistinctPlates(z.folders) && Inv(c, z, s0, w, before, done, landed) && AtFolder(z, w, o)
    ensures Inv(c, z, s0, Uploaded(z, w, o, more), before, done, landed')
  {
    var r, f := w.memory[o], z.folders[w.memory[o].at];
    landed' := landed;
    if f.plate in r.read {
      landed' := UploadsUnderway(z, s0, w.store, r, before, done, landed, more);
      forall other | other in w.memory ensures other == o {
        assert other in w.state.attempts;
      }
    }
    hide J.JobOk, Underway, Complete, Z.Mixed, Z.ToAttach;
  }

  lemma UploadsUnderway(z: Zip, s0: Z.Store, store: Z.Store, r: Reading, before: set<nat>, done: set<nat>,
      landed: set<Z.ObjectKey>, more: set<Z.ObjectKey>)
    returns (landed': set<Z.ObjectKey>)
    requires Underway(z, s0, store, r, before, done, landed) && r.at < |z.folders| && z.folders[r.at].plate in r.read
    ensures
      var a := r.read[z.folders[r.at].plate];
      var now := store.(objects := Z.Upload(store.objects,
        Z.PutKeys(z.config, a, Z.ToAttach(z.config, a, z.folders[r.at].entries)) * more));
      Z.Mixed(z.config, s0, z.folders, now, done, landed') && Underway(z, s0, now, r, before, done, landed')
  {
    Z.MixedAt(z.config, s0, z.folders, store, r.at, done, landed);
    hide Z.Mixed, Z.ToAttach, Z.Upload, Z.Final, Z.ReportAfter;
    landed' := Z.CrashLands(z.config, s0, z.folders, Z.Store(r.read, map[]), store, r.at, done, done, landed, more);
  }

  lemma FinishKeeps(c: P.Config, z: Zip, s0: Z.Store, w: World, before: set<nat>, done: set<nat>,
      landed: set<Z.ObjectKey>, o: nat)
    requires Z.DistinctPlates(z.folders) && Inv(c, z, s0, w, before, done, landed) && AtEnd(z, w, o)
    ensures Inv(c, z, s0, After(c, z, w, Finish(o)), before, done, landed)
  {
    hide P.Apply, J.JobOk, J.Alone, Underway, Complete, Z.Mixed, Z.DistinctPlates;
    ThroughMeansComplete(z, s0, w.store, w.memory[o], before, done, landed);
    FinishedJob(c, w.state, P.CompletePhotosBy(o, Reported(w.memory[o].report)));
    hide P.Enabled;
  }

  lemma {:induction false} RunKeepsInv(c: P.Config, z: Zip, s0: Z.Store, worlds: seq<World>, steps: seq<Step>, k: nat)
    returns (before: set<nat>, done: set<nat>, landed: set<Z.ObjectKey>)
    requires Z.DistinctPlates(z.folders) && Run(c, z, s0, worlds, steps) && k < |worlds|
    requires forall n :: 0 <= n < k ==> Undisturbed(worlds[n], steps[n])
    ensures Inv(c, z, s0, worlds[k], before, done, landed)
  {
    if k == 0 {
      before, done, landed := {}, {}, {};
      assert s0.objects == Z.Upload(s0.objects, {});
    } else {
      before, done, landed := RunKeepsInv(c, z, s0, worlds, steps, k - 1);
      hide Inv, J.JobOk, Stepped, Attached, Uploaded;
      match steps[k - 1]
      case Protocol(e) => ProtocolKeeps(c, z, s0, worlds[k - 1], before, done, landed, e);
      case ReadListings(o) =>
        ReadKeeps(c, z, s0, worlds[k - 1], before, done, landed, o);
        before := done;
      case Folder(o) => done, landed := FolderKeeps(c, z, s0, worlds[k - 1], before, done, landed, o);
      case Uploads(o, more) => landed := UploadsKeep(c, z, s0, worlds[k - 1], before, done, landed, o, more);
      case Finish(o) => FinishKeeps(c, z, s0, worlds[k - 1], before, done, landed, o);
    }
  }

  // While nothing is claimed before the attempts of the job are over: a stage that is completed has left
  // the photos and objects of one clean run on the listings as they were when the zip was attached, and
  // its report is the clean one, but for photos that a repeated entry made it count again.
  lemma CompletedStageEqualsOneCleanRun(c: P.Config, z: Zip, s0: Z.Store, worlds: seq<World>, steps: seq<Step>, k: nat)
    requires Z.DistinctPlates(z.folders) && Run(c, z, s0, worlds, steps) && k < |worlds|
    requires forall n :: 0 <= n < k ==> Undisturbed(worlds[n], steps[n])
    ensures U.Done(worlds[k].state.job.images.status) ==> Complete(z, s0, worlds[k].store, worlds[k].state.job.report)
  {
    var before, done, landed := RunKeepsInv(c, z, s0, worlds, steps, k);
  }

  /* ----- The photos under any overlap ----- */

  // An album is as it was when the zip was attached or has the folder's photos.
  predicate OldOrFinal(z: Zip, s0: Z.Store, f: Z.Folder, a: Z.Album)
    requires f.plate in s0.albums
  {
    a == s0.albums[f.plate] || a == Z.Final(z.config, s0.albums[f.plate], f.entries)
  }

  predicate IsFinal(z: Zip, s0: Z.Store, f: Z.Folder, albums: map<Plate, Z.Album>) {
    f.plate in s0.albums ==>
      f.plate in albums && albums[f.plate] == Z.Final(z.config, s0.albums[f.plate], f.entries)
  }

  // Each album is the old one or the final one; no other album has changed.
  ghost predicate AlbumsOk(z: Zip, s0: Z.Store, albums: map<Plate, Z.Album>) {
    && albums.Keys == s0.albums.Keys
    && (forall i :: 0 <= i < |z.folders| && z.folders[i].plate in s0.albums ==>
      OldOrFinal(z, s0, z.folders[i], albums[z.folders[i].plate]))
    && forall p :: p in s0.albums && (forall i :: 0 <= i < |z.folders| ==> z.folders[i].plate != p) ==>
      albums[p] == s0.albums[p]
  }

  // An album that is final stays so.
  ghost predicate NoneUndone(z: Zip, s0: Z.Store, before: map<Plate, Z.Album>, after: map<Plate, Z.Album>) {
    forall i :: 0 <= i < |z.folders| && IsFinal(z, s0, z.folders[i], before) ==> IsFinal(z, s0, z.folders[i], after)
  }

  // What an attempt has read was so at some time, and the folders behind it are attached, whoever did it.
  ghost predicate ReadOk(z: Zip, s0: Z.Store, now: map<Plate, Z.Album>, r: Reading) {
    && r.at <= |z.folders| && AlbumsOk(z, s0, r.read) && NoneUndone(z, s0, r.read, now)
    && (forall i :: 0 <= i < r.at ==> IsFinal(z, s0, z.folders[i], now))
    && SameFolders(z, s0, r.report, r.at)
  }

  // The report has the folders of a clean run so far.
  predicate SameFolders(z: Zip, s0: Z.Store, report: Z.Report, n: nat)
    requires n <= |z.folders|
  {
    var clean := Z.CleanReport(z.config, s0.albums, z.folders[..n]);
    report.matchedListings == clean.matchedListings && report.unmatchedFolders == clean.unmatchedFolders
  }

  // A folder attached on whatever was read leaves its album final.
  lemma AttachesOnce(z: Zip, s0: Z.Store, p: Z.Progress, f: Z.Folder, read: map<Plate, Z.Album>)
    requires f.plate in s0.albums && f.plate in read && f.plate in p.store.albums
    requires OldOrFinal(z, s0, f, read[f.plate]) && OldOrFinal(z, s0, f, p.store.albums[f.plate])
    requires IsFinal(z, s0, f, read) ==> IsFinal(z, s0, f, p.store.albums)
    ensures
      var after := Z.AttachFolder(z.config, read, p, f).store.albums;
      after == p.store.albums[f.plate := Z.Final(z.config, s0.albums[f.plate], f.entries)]
  {
    var a, now := s0.albums[f.plate], p.store.albums[f.plate];
    var final := Z.Final(z.config, a, f.entries);
    var chosen := Z.ToAttach(z.config, a, f.entries);
    Z.SecondTime(z.config, a, f.entries);
    if read[f.plate] == final {
      assert p.store.albums[f.plate := final] == p.store.albums;
    } else if now == a {
      Z.FirstTime(z.config, a, f.entries);
    } else {
      RefusedTwice(z.config, a, f.entries);
      assert p.store.albums[f.plate := final] == p.store.albums;
    }
  }

  lemma RefusedTwice(c: Z.Config, a: Z.Album, entries: seq<Z.Entry>)
    requires Z.ToAttach(c, a, entries) != []
    ensures !Z.AppendMatches(c, Z.Final(c, a, entries), Z.Placed(c, a, Z.ToAttach(c, a, entries)))
  {
    var images := Z.Placed(c, a, Z.ToAttach(c, a, entries));
    assert images[0] in images && images[0] in a.photos + images;
    assert images[0].key in Z.Keys(images) * Z.Keys(a.photos + images);
  }

  // Once the stage is completed, the photos of one clean run, and its folders in the report.
  ghost predicate AllAttached(z: Zip, s0: Z.Store, albums: map<Plate, Z.Album>, report: U.Report) {
    && (forall i :: 0 <= i < |z.folders| ==> IsFinal(z, s0, z.folders[i], albums))
    && var clean := Z.CleanReport(z.config, s0.albums, z.folders);
       report.matched == clean.matchedListings && report.unmatched == clean.unmatchedFolders
  }

  ghost predicate AnyInv(c: P.Config, z: Zip, s0: Z.Store, w: World) {
    && J.JobOk(c, w.state) && !w.state.job.images.status.Idle?
    && AlbumsOk(z, s0, w.store.albums)
    && (forall o :: o in w.memory ==> o in w.state.attempts && ReadOk(z, s0, w.store.albums, w.memory[o]))
    && (U.Done(w.state.job.images.status) ==> AllAttached(z, s0, w.store.albums, w.state.job.report))
  }

  lemma ReadStaysOk(z: Zip, s0: Z.Store, before: map<Plate, Z.Album>, after: map<Plate, Z.Album>, r: Reading)
    requires ReadOk(z, s0, before, r) && NoneUndone(z, s0, before, after)
    ensures ReadOk(z, s0, after, r)
  {
    hide IsFinal, AlbumsOk, SameFolders;
  }

  lemma ReadGoesOn(z: Zip, s0: Z.Store, before: map<Plate, Z.Album>, after: map<Plate, Z.Album>, r: Reading,
      report: Z.Report)
    requires ReadOk(z, s0, before, r) && NoneUndone(z, s0, before, after) && r.at < |z.folders|
    requires IsFinal(z, s0, z.folders[r.at], after) && SameFolders(z, s0, report, r.at + 1)
    ensures ReadOk(z, s0, after, Reading(r.read, r.at + 1, report))
  {
    hide IsFinal, AlbumsOk, SameFolders;
  }

  lemma FolderMoves(z: Zip, s0: Z.Store, p: Z.Progress, r: Reading)
    requires Z.DistinctPlates(z.folders) && AlbumsOk(z, s0, p.store.albums) && ReadOk(z, s0, p.store.albums, r)
    requires r.at < |z.folders| && p.report == r.report
    ensures
      var after := Z.AttachFolder(z.config, r.read, p, z.folders[r.at]);
      && AlbumsOk(z, s0, after.store.albums) && NoneUndone(z, s0, p.store.albums, after.store.albums)
      && ReadOk(z, s0, after.store.albums, Reading(r.read, r.at + 1, after.report))
  {
    var f := z.folders[r.at];
    var after := Z.AttachFolder(z.config, r.read, p, f);
    ReportMoves(z, s0, p, r);
    if f.plate in s0.albums {
      assert OldOrFinal(z, s0, f, r.read[f.plate]);
      AttachesOnce(z, s0, p, f, r.read);
      AlbumBecomesFinal(z, s0, p.store.albums, r.at);
    } else {
      assert after.store == p.store;
    }
    hide *;
    ReadGoesOn(z, s0, p.store.albums, after.store.albums, r, after.report);
  }

  lemma AlbumBecomesFinal(z: Zip, s0: Z.Store, albums: map<Plate, Z.Album>, n: nat)
    requires Z.DistinctPlates(z.folders) && AlbumsOk(z, s0, albums) && n < |z.folders| &&
      z.folders[n].plate in s0.albums
    ensures
      var f := z.folders[n];
      var after := albums[f.plate := Z.Final(z.config, s0.albums[f.plate], f.entries)];
      AlbumsOk(z, s0, after) && NoneUndone(z, s0, albums, after) && IsFinal(z, s0, f, after)
  {
    hide Z.Final;
    var f := z.folders[n];
    forall i | 0 <= i < |z.folders| ensures i == n || z.folders[i].plate != f.plate {
    }
    hide Z.DistinctPlates;
  }

  lemma ReportMoves(z: Zip, s0: Z.Store, p: Z.Progress, r: Reading)
    requires r.at < |z.folders| && r.read.Keys == s0.albums.Keys && SameFolders(z, s0, r.report, r.at) &&
      p.report == r.report
    ensures SameFolders(z, s0, Z.AttachFolder(z.config, r.read, p, z.folders[r.at]).report, r.at + 1)
  {
    assert z.folders[..r.at + 1][..r.at] == z.folders[..r.at];
    hide Z.ToAttach, Z.AlreadyAttached, Z.Placed, Z.AppendMatches;
  }

  lemma AnyProtocolKeeps(c: P.Config, z: Zip, s0: Z.Store, w: World, e: P.Event)
    requires AnyInv(c, z, s0, w) && Possible(c, z, w, Protocol(e)) && !e.DealerAttach?
    ensures AnyInv(c, z, s0, Stepped(c, w, e))
  {
    StepKeepsJob(c, w.state, e);
    StageSteps(c, w.state, e);
    hide P.Apply, P.Enabled, J.JobOk, ReadOk, AllAttached, AlbumsOk;
    OtherReport(c, z, s0, w, e);
  }

  lemma OtherReport(c: P.Config, z: Zip, s0: Z.Store, w: World, e: P.Event)
    requires J.JobOk(c, w.state) && !w.state.job.images.status.Idle? && P.Enabled(c, w.state, e)
    requires !e.CompletePhotosBy? && !e.DealerAttach?
    requires U.Done(w.state.job.images.status) ==> AllAttached(z, s0, w.store.albums, w.state.job.report)
    ensures U.Done(P.Apply(c, w.state, e).job.images.status) ==>
      AllAttached(z, s0, w.store.albums, P.Apply(c, w.state, e).job.report)
  {
    StageSteps(c, w.state, e);
    hide P.Apply, P.Enabled, J.JobOk, AllAttached;
  }

  lemma AnyFolderKeeps(c: P.Config, z: Zip, s0: Z.Store, w: World, o: nat)
    requires Z.DistinctPlates(z.folders) && AnyInv(c, z, s0, w) && AtFolder(z, w, o)
    ensures AnyInv(c, z, s0, Attached(z, w, o))
  {
    hide J.JobOk, ReadOk, AlbumsOk, Z.AttachFolder, NoneUndone, IsFinal, Z.DistinctPlates, AllAttached;
    var r, after := w.memory[o], Attached(z, w, o);
    FolderMoves(z, s0, Z.Progress(w.store, r.report), r);
    forall other | other in after.memory ensures ReadOk(z, s0, after.store.albums, after.memory[other]) {
      if other != o {
        ReadStaysOk(z, s0, w.store.albums, after.store.albums, w.memory[other]);
      }
    }
    if U.Done(w.state.job.images.status) {
      StaysAttached(z, s0, w.store.albums, after.store.albums, w.state.job.report);
    }
  }

  lemma StaysAttached(z: Zip, s0: Z.Store, before: map<Plate, Z.Album>, after: map<Plate, Z.Album>, report: U.Report)
    requires AllAttached(z, s0, before, report) && NoneUndone(z, s0, before, after)
    ensures AllAttached(z, s0, after, report)
  {
    hide IsFinal;
  }

  lemma AnyReadKeeps(c: P.Config, z: Zip, s0: Z.Store, w: World, o: nat)
    requires AnyInv(c, z, s0, w) && Possible(c, z, w, ReadListings(o))
    ensures AnyInv(c, z, s0, After(c, z, w, ReadListings(o)))
  {
    assert z.folders[..0] == [];
    assert ReadOk(z, s0, w.store.albums, Reading(w.store.albums, 0, Z.Report(0, 0, [])));
    hide J.JobOk, ReadOk, AlbumsOk, AllAttached;
  }

  lemma AnyUploadsKeep(c: P.Config, z: Zip, s0: Z.Store, w: World, o: nat, landed: set<Z.ObjectKey>)
    requires AnyInv(c, z, s0, w) && AtFolder(z, w, o)
    ensures AnyInv(c, z, s0, Uploaded(z, w, o, landed))
  {
    hide J.JobOk, ReadOk, AlbumsOk, AllAttached;
  }

  lemma AnyFinishKeeps(c: P.Config, z: Zip, s0: Z.Store, w: World, o: nat)
    requires AnyInv(c, z, s0, w) && AtEnd(z, w, o)
    ensures AnyInv(c, z, s0, After(c, z, w, Finish(o)))
  {
    var e := P.CompletePhotosBy(o, Reported(w.memory[o].report));
    ThroughMeansAttached(z, s0, w.store.albums, w.memory[o]);
    hide J.JobOk, ReadOk, AllAttached, AlbumsOk, P.Apply;
    ReportWritten(c, w.state, e);
    hide P.Enabled;
  }

  lemma ThroughMeansAttached(z: Zip, s0: Z.Store, now: map<Plate, Z.Album>, r: Reading)
    requires ReadOk(z, s0, now, r) && r.at == |z.folders|
    ensures AllAttached(z, s0, now, Reported(r.report))
  {
    hide IsFinal;
    assert z.folders[..|z.folders|] == z.folders;
  }

  lemma ReportWritten(c: P.Config, s: P.State, e: P.Event)
    requires J.JobOk(c, s) && P.Enabled(c, s, e) && e.CompletePhotosBy? && !s.job.images.status.Idle?
    ensures
      var after := P.Apply(c, s, e);
      && J.JobOk(c, after) && !after.job.images.status.Idle?
      && (U.Done(after.job.images.status) ==>
        after.job.report == e.report || (U.Done(s.job.images.status) && after.job.report == s.job.report))
  {
    StepKeepsJob(c, s, e);
    StageSteps(c, s, e);
    ReportIs(c, s, e);
    hide P.Apply, P.Enabled, J.JobOk;
  }

  lemma ReportIs(c: P.Config, s: P.State, e: P.Event)
    requires P.Enabled(c, s, e) && e.CompletePhotosBy?
    ensures U.HeldBy(s.job, U.Images, e.owner) ==> P.Apply(c, s, e).job.report == e.report
  {
    hide P.NextCounts, P.AttemptsAfter, P.LeftAfter, P.DecisionsAfter, P.RequeuesAfter;
  }

  lemma {:induction false} RunKeepsAlbums(c: P.Config, z: Zip, s0: Z.Store, worlds: seq<World>, steps: seq<Step>,
      k: nat)
    requires Z.DistinctPlates(z.folders) && Run(c, z, s0, worlds, steps) && k < |worlds|
    ensures AnyInv(c, z, s0, worlds[k])
  {
    if k == 0 {
    } else {
      RunKeepsAlbums(c, z, s0, worlds, steps, k - 1);
      hide AnyInv, J.JobOk, Stepped, Attached, Uploaded;
      match steps[k - 1]
      case Protocol(e) => AnyProtocolKeeps(c, z, s0, worlds[k - 1], e);
      case ReadListings(o) => AnyReadKeeps(c, z, s0, worlds[k - 1], o);
      case Folder(o) => AnyFolderKeeps(c, z, s0, worlds[k - 1], o);
      case Uploads(o, landed) => AnyUploadsKeep(c, z, s0, worlds[k - 1], o, landed);
      case Finish(o) => AnyFinishKeeps(c, z, s0, worlds[k - 1], o);
    }
  }

  // However attempts overlap: each listing has its old photos or its final ones at every moment, and a
  // completed stage has left the photos of one clean run and reports its folders. (The objects and the
  // number of photos reported need attempts that do not overlap.)
  lemma OverlapAttachesAll(c: P.Config, z: Zip, s0: Z.Store, worlds: seq<World>, steps: seq<Step>, k: nat)
    requires Z.DistinctPlates(z.folders) && Run(c, z, s0, worlds, steps) && k < |worlds|
    ensures
      var w, clean := worlds[k], Z.Attempt(z.config, s0, z.folders);
      && w.store.albums.Keys == s0.albums.Keys == clean.store.albums.Keys
      && (forall p :: p in s0.albums ==> w.store.albums[p] in {s0.albums[p], clean.store.albums[p]})
      && (U.Done(w.state.job.images.status) ==>
            && w.store.albums == clean.store.albums
            && w.state.job.report.matched == clean.report.matchedListings
            && w.state.job.report.unmatched == clean.report.unmatchedFolders)
  {
    RunKeepsAlbums(c, z, s0, worlds, steps, k);
    CleanIsMixed(z, s0);
    Z.RetriesEqualOneCleanRun(z.config, s0, z.folders, []);
    hide Run, Z.Attempt, J.JobOk, ReadOk, Z.Final;
    AlbumsOfCleanRun(z, s0, worlds[k].store.albums, Z.Attempt(z.config, s0, z.folders).store);
  }

  lemma AlbumsOfCleanRun(z: Zip, s0: Z.Store, albums: map<Plate, Z.Album>, clean: Z.Store)
    requires AlbumsOk(z, s0, albums) &&
      Z.Mixed(z.config, s0, z.folders, clean, Z.Upto(|z.folders|), Z.AllPuts(z.config, s0.albums, z.folders))
    ensures clean.albums.Keys == s0.albums.Keys
    ensures forall p :: p in s0.albums ==> albums[p] in {s0.albums[p], clean.albums[p]}
    ensures (forall i :: 0 <= i < |z.folders| ==> IsFinal(z, s0, z.folders[i], albums)) ==> albums == clean.albums
  {
    hide Z.Final, Z.AllPuts, Z.Upload, Z.Puts;
    forall p | p in s0.albums
      ensures albums[p] in {s0.albums[p], clean.albums[p]}
      ensures (forall i :: 0 <= i < |z.folders| ==> IsFinal(z, s0, z.folders[i], albums)) ==>
        albums[p] == clean.albums[p]
    {
      if i: nat :| i < |z.folders| && z.folders[i].plate == p {
        assert i in Z.Upto(|z.folders|);
        assert OldOrFinal(z, s0, z.folders[i], albums[p]);
      }
    }
  }
}
