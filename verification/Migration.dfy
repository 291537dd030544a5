/** The restartable move of all listing photos from the bucket's root to their own prefix. */
module Migration {
  import opened Options

  // The old object of a photo at the root, its new object under the prefix, and its small copy.
  datatype ObjectKey = Root(key: string) | Full(key: string) | Small(key: string)

  datatype Image = Image(key: string, url: string, thumbUrl: Option<string>)

  // listings: the photos of each listing, in the order the listings are read.
  datatype Store = Store(objects: map<ObjectKey, nat>, listings: seq<seq<Image>>)

  // What the image library makes of given bytes; None when it fails. clean: a WebP without metadata.
  datatype Codec = Codec(clean: nat -> bool, full: nat -> Option<nat>, small: nat -> Option<nat>,
      encode: string -> string)

  datatype Settings = Settings(dryRun: bool, keepLegacy: bool, publicUrl: Option<string>)

  datatype Op =
    | Write(object: ObjectKey, bytes: nat)
    | Remove(object: ObjectKey)
    | SetImageUrls(listing: nat, urls: map<string, string>)
    | SetThumbUrls(listing: nat, urls: map<string, string>)

  /* ----- Addresses ----- */

  // An empty public URL is none.
  predicate Repoints(o: Settings) {
    o.publicUrl.Some? && o.publicUrl.value != ""
  }

  function WithoutSlash(url: string): string {
    if url != "" && url[|url| - 1] == '/' then url[..|url| - 1] else url
  }

  function LastSlash(url: string): int
    ensures -1 <= LastSlash(url) < |url|
  {
    if url == "" then -1 else if url[|url| - 1] == '/' then |url| - 1 else LastSlash(url[..|url| - 1])
  }

  // The folder of a URL. Without any slash the source's slice drops the last character.
  function FolderOf(url: string): string {
    if LastSlash(url) >= 0 then url[..LastSlash(url)] else if url == "" then "" else url[..|url| - 1]
  }

  function Base(o: Settings, image: Image): string {
    if Repoints(o) then WithoutSlash(o.publicUrl.value) else FolderOf(image.url)
  }

  function UrlFor(c: Codec, o: Settings, image: Image): string {
    if Repoints(o) then Base(o, image) + "/" + c.encode(image.key) else image.url
  }

  function ThumbUrlFor(c: Codec, o: Settings, image: Image): string {
    Base(o, image) + "/thumbs/" + c.encode(image.key)
  }

  /* ----- What should be stored for a key ----- */

  function Converted(c: Codec, bytes: nat): Option<nat> {
    if c.clean(bytes) then Some(bytes) else c.full(bytes)
  }

  function GoalFull(c: Codec, objects: map<ObjectKey, nat>, key: string): Option<nat> {
    if Full(key) in objects then Some(objects[Full(key)])
    else if Root(key) in objects then Converted(c, objects[Root(key)])
    else None
  }

  function GoalSmall(c: Codec, objects: map<ObjectKey, nat>, key: string): Option<nat> {
    if Small(key) in objects then Some(objects[Small(key)])
    else if GoalFull(c, objects, key).Some? then c.small(GoalFull(c, objects, key).value)
    else None
  }

  function GoalThumbUrl(c: Codec, o: Settings, objects: map<ObjectKey, nat>, image: Image): Option<string> {
    if GoalFull(c, objects, image.key).Some? && GoalSmall(c, objects, image.key).Some?
      then Some(ThumbUrlFor(c, o, image))
    else image.thumbUrl
  }

  /* ----- One step ----- */

  function Repointed(images: seq<Image>, urls: map<string, string>): seq<Image> {
    seq(|images|, j requires 0 <= j < |images| =>
      if images[j].key in urls then images[j].(url := urls[images[j].key]) else images[j])
  }

  function Rethumbed(images: seq<Image>, urls: map<string, string>): seq<Image> {
    seq(|images|, j requires 0 <= j < |images| =>
      if images[j].key in urls then images[j].(thumbUrl := Some(urls[images[j].key])) else images[j])
  }

  function Do(s: Store, op: Op): (r: Store)
    ensures |r.listings| == |s.listings|
  {
    match op
    case Write(k, b) => s.(objects := s.objects[k := b])
    case Remove(k) => s.(objects := s.objects - {k})
    case SetImageUrls(i, urls) =>
      if i < |s.listings| then s.(listings := s.listings[i := Repointed(s.listings[i], urls)]) else s
    case SetThumbUrls(i, urls) =>
      if i < |s.listings| then s.(listings := s.listings[i := Rethumbed(s.listings[i], urls)]) else s
  }

  function DoAll(s: Store, ops: seq<Op>): (r: Store)
    ensures |r.listings| == |s.listings|
    decreases |ops|
  {
    if ops == [] then s else Do(DoAll(s, ops[..|ops| - 1]), ops[|ops| - 1])
  }

  /* ----- The steps of a run ----- */

  // One photo: its new object, the removal of the old one, its small copy.
  function ImageOps(c: Codec, o: Settings, objects: map<ObjectKey, nat>, key: string): seq<Op> {
    var full, small := GoalFull(c, objects, key), GoalSmall(c, objects, key);
    var move := if Full(key) in objects || full.None? then []
      else [Write(Full(key), full.value)] + if o.keepLegacy then [] else [Remove(Root(key))];
    var shrink := if full.None? || Small(key) in objects || small.None? then [] else [Write(Small(key), small.value)];
    move + shrink
  }

  function ImagesOps(c: Codec, o: Settings, s: Store, images: seq<Image>): seq<Op>
    decreases |images|
  {
    if images == [] then []
    else
      var before := ImagesOps(c, o, s, images[..|images| - 1]);
      before + ImageOps(c, o, DoAll(s, before).objects, images[|images| - 1].key)
  }

  function NewUrls(c: Codec, o: Settings, images: seq<Image>): map<string, string>
    decreases |images|
  {
    if images == [] then map[]
    else
      var before, image := NewUrls(c, o, images[..|images| - 1]), images[|images| - 1];
      if UrlFor(c, o, image) != image.url then before[image.key := UrlFor(c, o, image)] else before
  }

  // Recorded while the photos are handled, each with the objects found at its turn.
  function NewThumbUrls(c: Codec, o: Settings, s: Store, images: seq<Image>): map<string, string>
    decreases |images|
  {
    if images == [] then map[]
    else
      var rest, image := images[..|images| - 1], images[|images| - 1];
      var objects := DoAll(s, ImagesOps(c, o, s, rest)).objects;
      var before := NewThumbUrls(c, o, s, rest);
      if GoalThumbUrl(c, o, objects, image) != image.thumbUrl then before[image.key := ThumbUrlFor(c, o, image)]
        else before
  }

  // A dry run does nothing.
  function ListingOps(c: Codec, o: Settings, s: Store, i: nat): seq<Op> {
    if i >= |s.listings| || o.dryRun then []
    else
      var addresses := UrlOps(i, NewUrls(c, o, s.listings[i])) + ThumbOps(i, NewThumbUrls(c, o, s, s.listings[i]));
      ImagesOps(c, o, s, s.listings[i]) + addresses
  }

  function UrlOps(i: nat, urls: map<string, string>): seq<Op> {
    if urls == map[] then [] else [SetImageUrls(i, urls)]
  }

  function ThumbOps(i: nat, thumbs: map<string, string>): seq<Op> {
    if thumbs == map[] then [] else [SetThumbUrls(i, thumbs)]
  }

  // What a run does with listing i of a store.
  type Steps = (Store, nat) -> seq<Op>

  function StepsOf(c: Codec, o: Settings): Steps {
    (s: Store, i: nat) => ListingOps(c, o, s, i)
  }

  // The first n listings, one after the other.
  function RunOps(steps: Steps, s: Store, n: nat): seq<Op> {
    if n == 0 then []
    else
      var before := RunOps(steps, s, n - 1);
      before + steps(DoAll(s, before), n - 1)
  }

  function Run(steps: Steps, s: Store): Store {
    DoAll(s, RunOps(steps, s, |s.listings|))
  }

  // Each crashed run stops after some number of its steps.
  function AfterCrashes(steps: Steps, s: Store, stops: seq<nat>): (r: Store)
    decreases |stops|
  {
    if stops == [] then s
    else
      var t := AfterCrashes(steps, s, stops[..|stops| - 1]);
      DoAll(t, Stopped(RunOps(steps, t, |t.listings|), stops[|stops| - 1]))
  }

  function Stopped(ops: seq<Op>, stop: nat): seq<Op> {
    if stop <= |ops| then ops[..stop] else ops
  }

  /* ----- Steps that keep the goal ----- */

  ghost predicate Listed(s: Store, key: string) {
    exists i, j :: 0 <= i < |s.listings| && 0 <= j < |s.listings[i]| && s.listings[i][j].key == key
  }

  // A step that brings what is stored closer to the goal.
  ghost predicate Sound(c: Codec, o: Settings, s: Store, op: Op) {
    match op
    case Write(Full(k), b) => Listed(s, k) && Full(k) !in s.objects && GoalFull(c, s.objects, k) == Some(b)
    case Write(Small(k), b) =>
      Listed(s, k) && Full(k) in s.objects && Small(k) !in s.objects && GoalSmall(c, s.objects, k) == Some(b)
    case Remove(Root(k)) => Full(k) in s.objects
    case SetImageUrls(i, urls) =>
      Repoints(o) && i < |s.listings| && forall image :: image in s.listings[i] && image.key in urls ==>
        urls[image.key] == UrlFor(c, o, image)
    case SetThumbUrls(i, urls) =>
      && i < |s.listings|
      && forall image :: image in s.listings[i] && image.key in urls ==>
           Full(image.key) in s.objects && Small(image.key) in s.objects && urls[image.key] == ThumbUrlFor(c, o, image)
    case _ => false
  }

  ghost predicate SoundAll(c: Codec, o: Settings, s: Store, ops: seq<Op>)
    decreases |ops|
  {
    ops == [] || (SoundAll(c, o, s, ops[..|ops| - 1]) && Sound(c, o, DoAll(s, ops[..|ops| - 1]), ops[|ops| - 1]))
  }

  ghost predicate SameObjectGoals(c: Codec, a: map<ObjectKey, nat>, b: map<ObjectKey, nat>) {
    forall k :: GoalFull(c, a, k) == GoalFull(c, b, k) && GoalSmall(c, a, k) == GoalSmall(c, b, k)
  }

  // Same photo, same addresses in the end.
  predicate SameImageGoals(c: Codec, o: Settings, a: Image, b: Image) {
    a.key == b.key && UrlFor(c, o, a) == UrlFor(c, o, b) && Base(o, a) == Base(o, b)
  }

  ghost predicate SameGoals(c: Codec, o: Settings, s: Store, t: Store) {
    && SameObjectGoals(c, s.objects, t.objects)
    && |s.listings| == |t.listings|
    && (forall i :: 0 <= i < |s.listings| ==> |s.listings[i]| == |t.listings[i]|)
    && (forall i, j :: 0 <= i < |s.listings| && 0 <= j < |s.listings[i]| ==>
          && SameImageGoals(c, o, s.listings[i][j], t.listings[i][j])
          && GoalThumbUrl(c, o, s.objects, s.listings[i][j]) == GoalThumbUrl(c, o, t.objects, t.listings[i][j]))
  }

  // From s to t no photo is lost, no new object or small copy is taken back, and photos no listing
  // has are left alone.
  ghost predicate Forward(c: Codec, s: Store, t: Store) {
    && (forall k :: Root(k) in s.objects ==>
          (Root(k) in t.objects && t.objects[Root(k)] == s.objects[Root(k)]) || Full(k) in t.objects)
    && (forall k :: Full(k) in s.objects ==> Full(k) in t.objects && t.objects[Full(k)] == s.objects[Full(k)])
    && (forall k :: Small(k) in s.objects ==> Small(k) in t.objects && t.objects[Small(k)] == s.objects[Small(k)])
    && (forall k :: !Listed(s, k) ==>
      (Full(k) in t.objects ==> Full(k) in s.objects) && (Small(k) in t.objects ==> Small(k) in s.objects))
  }

  lemma WriteKeepsGoals(c: Codec, o: Settings, s: Store, k: ObjectKey, b: nat)
    requires Sound(c, o, s, Write(k, b))
    ensures SameObjectGoals(c, s.objects[k := b], s.objects)
  {
  }

  lemma RemoveKeepsGoals(c: Codec, o: Settings, s: Store, k: ObjectKey)
    requires Sound(c, o, s, Remove(k))
    ensures SameObjectGoals(c, s.objects - {k}, s.objects)
  {
  }

  lemma SameListings(c: Codec, o: Settings, s: Store, t: Store)
    requires t.listings == s.listings && SameObjectGoals(c, t.objects, s.objects)
    ensures SameGoals(c, o, t, s)
  {
    hide GoalFull, GoalSmall, UrlFor, Base;
  }

  lemma AddressesKeepGoals(c: Codec, o: Settings, s: Store, op: Op)
    requires Sound(c, o, s, op) && (op.SetImageUrls? || op.SetThumbUrls?)
    ensures SameGoals(c, o, Do(s, op), s)
  {
    hide Listed;
    assert Do(s, op).objects == s.objects;
  }

  lemma StepGoesForward(c: Codec, o: Settings, s: Store, op: Op)
    requires Sound(c, o, s, op)
    ensures Forward(c, s, Do(s, op))
  {
    hide Repointed, Rethumbed, Converted, UrlFor, ThumbUrlFor;
  }

  lemma StepKeepsGoals(c: Codec, o: Settings, s: Store, op: Op)
    requires Sound(c, o, s, op)
    ensures SameGoals(c, o, Do(s, op), s)
    ensures Forward(c, s, Do(s, op))
  {
    StepGoesForward(c, o, s, op);
    hide Sound, Forward, SameGoals;
    match op
    case Write(k, b) =>
      WriteKeepsGoals(c, o, s, k, b);
      SameListings(c, o, s, Do(s, op));
    case Remove(k) =>
      RemoveKeepsGoals(c, o, s, k);
      SameListings(c, o, s, Do(s, op));
    case _ => AddressesKeepGoals(c, o, s, op);
  }

  lemma GoalsCompose(c: Codec, o: Settings, a: Store, b: Store, d: Store)
    requires SameGoals(c, o, a, b) && SameGoals(c, o, b, d)
    ensures SameGoals(c, o, a, d)
  {
  }

  lemma SameListed(c: Codec, o: Settings, a: Store, b: Store, key: string)
    requires SameGoals(c, o, a, b)
    ensures Listed(a, key) <==> Listed(b, key)
  {
    if Listed(a, key) {
      var i, j :| 0 <= i < |a.listings| && 0 <= j < |a.listings[i]| && a.listings[i][j].key == key;
      assert SameImageGoals(c, o, a.listings[i][j], b.listings[i][j]);
      assert b.listings[i][j].key == key;
    }
    if Listed(b, key) {
      var i, j :| 0 <= i < |b.listings| && 0 <= j < |b.listings[i]| && b.listings[i][j].key == key;
      assert SameImageGoals(c, o, a.listings[i][j], b.listings[i][j]);
      assert a.listings[i][j].key == key;
    }
  }

  lemma ForwardComposes(c: Codec, o: Settings, a: Store, b: Store, d: Store)
    requires Forward(c, a, b) && Forward(c, b, d) && SameGoals(c, o, b, a)
    ensures Forward(c, a, d)
  {
    forall k ensures Listed(a, k) <==> Listed(b, k) {
      SameListed(c, o, b, a, k);
    }
  }

  lemma {:induction false} SoundStepsKeepGoals(c: Codec, o: Settings, s: Store, ops: seq<Op>)
    requires SoundAll(c, o, s, ops)
    ensures SameGoals(c, o, DoAll(s, ops), s)
    ensures Forward(c, s, DoAll(s, ops))
    decreases |ops|
  {
    if ops != [] {
      var n := |ops| - 1;
      SoundStepsKeepGoals(c, o, s, ops[..n]);
      var before := DoAll(s, ops[..n]);
      StepKeepsGoals(c, o, before, ops[n]);
      GoalsCompose(c, o, DoAll(s, ops), before, s);
      ForwardComposes(c, o, s, before, DoAll(s, ops));
    }
  }

  lemma {:induction false} SoundPrefix(c: Codec, o: Settings, s: Store, ops: seq<Op>, n: nat)
    requires SoundAll(c, o, s, ops) && n <= |ops|
    ensures SoundAll(c, o, s, ops[..n])
    decreases |ops|
  {
    if n == |ops| {
      assert ops[..n] == ops;
    } else {
      SoundPrefix(c, o, s, ops[..|ops| - 1], n);
      assert ops[..|ops| - 1][..n] == ops[..n];
    }
  }

  lemma {:induction false} DoAllConcat(s: Store, a: seq<Op>, b: seq<Op>)
    ensures DoAll(s, a + b) == DoAll(DoAll(s, a), b)
    decreases |b|
  {
    if b == [] {
      assert a + b == a;
    } else {
      var n := |b| - 1;
      assert (a + b)[..|a| + n] == a + b[..n];
      DoAllConcat(s, a, b[..n]);
    }
  }

  lemma WithoutLast(a: seq<Op>, b: seq<Op>)
    requires b != []
    ensures a + b == (a + b[..|b| - 1]) + [b[|b| - 1]]
  {
  }

  lemma SoundSnoc(c: Codec, o: Settings, s: Store, ops: seq<Op>, op: Op)
    ensures SoundAll(c, o, s, ops + [op]) <==> SoundAll(c, o, s, ops) && Sound(c, o, DoAll(s, ops), op)
  {
    hide Sound, Do;
    assert (ops + [op])[..|ops|] == ops;
  }

  lemma {:induction false} SoundConcat(c: Codec, o: Settings, s: Store, a: seq<Op>, b: seq<Op>)
    requires SoundAll(c, o, s, a) && SoundAll(c, o, DoAll(s, a), b)
    ensures SoundAll(c, o, s, a + b)
    decreases |b|
  {
    if b == [] {
      assert a + b == a;
    } else {
      var n := |b| - 1;
      SoundConcat(c, o, s, a, b[..n]);
      DoAllConcat(s, a, b[..n]);
      WithoutLast(a, b);
      SoundSnoc(c, o, s, a + b[..n], b[n]);
    }
  }

  /* ----- A run takes only such steps, and reaches the goal ----- */

  predicate AtGoalKey(c: Codec, s: Store, key: string) {
    && (GoalFull(c, s.objects, key).Some? ==> Full(key) in s.objects)
    && (GoalSmall(c, s.objects, key).Some? ==> Small(key) in s.objects)
  }

  predicate AtGoalImage(c: Codec, o: Settings, s: Store, image: Image) {
    && AtGoalKey(c, s, image.key)
    && image.url == UrlFor(c, o, image)
    && image.thumbUrl == GoalThumbUrl(c, o, s.objects, image)
  }

  // A key may be listed more than once, as a repeated entry of a photo archive leaves it; it then has
  // the same folder each time, or the run is given a public URL.
  predicate OneFolderPerKey(o: Settings, images: seq<Image>) {
    forall i, j :: 0 <= i < j < |images| && images[i].key == images[j].key ==> Base(o, images[i]) == Base(o, images[j])
  }

  predicate OneFolderEach(o: Settings, s: Store) {
    forall i :: 0 <= i < |s.listings| ==> OneFolderPerKey(o, s.listings[i])
  }

  lemma StaysAtGoal(c: Codec, o: Settings, s: Store, t: Store, key: string)
    requires SameGoals(c, o, t, s) && Forward(c, s, t) && AtGoalKey(c, s, key)
    ensures AtGoalKey(c, t, key)
  {
  }

  lemma OneStepSound(c: Codec, o: Settings, s: Store, op: Op)
    requires Sound(c, o, s, op)
    ensures SoundAll(c, o, s, [op]) && DoAll(s, [op]) == Do(s, op)
  {
    assert [op][..0] == [];
  }

  lemma MoveSound(c: Codec, o: Settings, s: Store, key: string)
    requires Listed(s, key) && Full(key) !in s.objects && GoalFull(c, s.objects, key).Some?
    ensures
      var full := GoalFull(c, s.objects, key).value;
      var ops := [Write(Full(key), full)] + if o.keepLegacy then [] else [Remove(Root(key))];
      && SoundAll(c, o, s, ops)
      && DoAll(s, ops) == s.(objects := s.objects[Full(key) := full] - if o.keepLegacy then {} else {Root(key)})
  {
    var write, remove := Write(Full(key), GoalFull(c, s.objects, key).value), Remove(Root(key));
    OneStepSound(c, o, s, write);
    if o.keepLegacy {
      assert [write] + [] == [write];
    } else {
      OneStepSound(c, o, Do(s, write), remove);
      SoundConcat(c, o, s, [write], [remove]);
      DoAllConcat(s, [write], [remove]);
    }
  }

  lemma ImageOpsSound(c: Codec, o: Settings, s: Store, key: string)
    requires Listed(s, key)
    ensures SoundAll(c, o, s, ImageOps(c, o, s.objects, key))
    ensures AtGoalKey(c, DoAll(s, ImageOps(c, o, s.objects, key)), key)
    ensures DoAll(s, ImageOps(c, o, s.objects, key)).listings == s.listings
  {
    var full, small := GoalFull(c, s.objects, key), GoalSmall(c, s.objects, key);
    var move := if Full(key) in s.objects || full.None? then []
      else [Write(Full(key), full.value)] + if o.keepLegacy then [] else [Remove(Root(key))];
    if move != [] {
      MoveSound(c, o, s, key);
    }
    var t := DoAll(s, move);
    assert t.listings == s.listings && SoundAll(c, o, s, move);
    SoundStepsKeepGoals(c, o, s, move);
    if full.None? || Small(key) in s.objects || small.None? {
      assert move + [] == move;
    } else {
      var shrink := Write(Small(key), small.value);
      assert Full(key) in t.objects && Small(key) !in t.objects && GoalSmall(c, t.objects, key) == small;
      OneStepSound(c, o, t, shrink);
      SoundConcat(c, o, s, move, [shrink]);
      DoAllConcat(s, move, [shrink]);
    }
  }

  ghost predicate AllListed(s: Store, images: seq<Image>) {
    forall j :: 0 <= j < |images| ==> Listed(s, images[j].key)
  }

  predicate AllAtGoal(c: Codec, s: Store, images: seq<Image>) {
    forall j :: 0 <= j < |images| ==> AtGoalKey(c, s, images[j].key)
  }

  lemma StayAtGoal(c: Codec, o: Settings, s: Store, ops: seq<Op>, images: seq<Image>)
    requires SoundAll(c, o, s, ops) && AllAtGoal(c, s, images)
    ensures AllAtGoal(c, DoAll(s, ops), images)
  {
    SoundStepsKeepGoals(c, o, s, ops);
    forall j | 0 <= j < |images| ensures AtGoalKey(c, DoAll(s, ops), images[j].key) {
      StaysAtGoal(c, o, s, DoAll(s, ops), images[j].key);
    }
  }

  // The last photo after the steps `before` of the others.
  lemma ImagesStep(c: Codec, o: Settings, s: Store, before: seq<Op>, images: seq<Image>)
    requires SoundAll(c, o, s, before) && DoAll(s, before).listings == s.listings
    requires images != [] && Listed(s, images[|images| - 1].key) &&
      AllAtGoal(c, DoAll(s, before), images[..|images| - 1])
    ensures
      var ops := before + ImageOps(c, o, DoAll(s, before).objects, images[|images| - 1].key);
      SoundAll(c, o, s, ops) && DoAll(s, ops).listings == s.listings && AllAtGoal(c, DoAll(s, ops), images)
  {
    var t, n := DoAll(s, before), |images| - 1;
    var last := ImageOps(c, o, t.objects, images[n].key);
    ImageOpsSound(c, o, t, images[n].key);
    StayAtGoal(c, o, t, last, images[..n]);
    SoundConcat(c, o, s, before, last);
    DoAllConcat(s, before, last);
    EachAtGoal(c, DoAll(t, last), images);
  }

  lemma EachAtGoal(c: Codec, s: Store, images: seq<Image>)
    requires images != [] && AllAtGoal(c, s, images[..|images| - 1]) && AtGoalKey(c, s, images[|images| - 1].key)
    ensures AllAtGoal(c, s, images)
  {
    forall j | 0 <= j < |images| - 1 ensures AtGoalKey(c, s, images[j].key) {
      assert images[..|images| - 1][j] == images[j];
    }
  }

  lemma {:induction false} ImagesOpsSound(c: Codec, o: Settings, s: Store, images: seq<Image>)
    requires AllListed(s, images)
    ensures SoundAll(c, o, s, ImagesOps(c, o, s, images))
    ensures AllAtGoal(c, DoAll(s, ImagesOps(c, o, s, images)), images)
    ensures DoAll(s, ImagesOps(c, o, s, images)).listings == s.listings
    decreases |images|
  {
    if images != [] {
      var n := |images| - 1;
      hide SoundAll, AllAtGoal, AtGoalKey, DoAll, ImageOps, Listed;
      ImagesOpsSound(c, o, s, images[..n]);
      ImagesStep(c, o, s, ImagesOps(c, o, s, images[..n]), images);
    }
  }

  // A key is recorded exactly when one of its photos has an address to change, and then with the
  // address wanted for all of them.
  ghost predicate Records(images: seq<Image>, goals: seq<Option<string>>, wanted: seq<string>,
      urls: map<string, string>)
    requires |images| == |goals| == |wanted|
  {
    && (forall k :: k in urls ==> exists j :: 0 <= j < |images| && images[j].key == k && goals[j].Some?)
    && forall j :: 0 <= j < |images| ==>
         (goals[j].Some? ==> images[j].key in urls) && (images[j].key in urls ==> urls[images[j].key] == wanted[j])
  }

  lemma RecordStep(images: seq<Image>, goals: seq<Option<string>>, wanted: seq<string>, before: map<string, string>)
    requires images != [] && |images| == |goals| == |wanted|
    requires
      var n := |images| - 1;
      && (goals[n].Some? ==> goals[n].value == wanted[n])
      && forall j :: 0 <= j < n && images[j].key == images[n].key && (goals[j].Some? || goals[n].Some?) ==>
        wanted[j] == wanted[n]
    requires Records(images[..|images| - 1], goals[..|images| - 1], wanted[..|images| - 1], before)
    ensures
      var n := |images| - 1;
      Records(images, goals, wanted, if goals[n].Some? then before[images[n].key := goals[n].value] else before)
  {
    var n := |images| - 1;
    var after := if goals[n].Some? then before[images[n].key := goals[n].value] else before;
    forall k | k in before ensures exists j :: 0 <= j < n && images[j].key == k && goals[j].Some? {
      var j :| 0 <= j < n && images[..n][j].key == k && goals[..n][j].Some?;
      assert images[j].key == k && goals[j].Some?;
    }
    forall j | 0 <= j < n
      ensures (goals[j].Some? ==> images[j].key in after) &&
        (images[j].key in after ==> after[images[j].key] == wanted[j])
    {
      assert images[..n][j] == images[j] && goals[..n][j] == goals[j] && wanted[..n][j] == wanted[j];
    }
    if goals[n].None? && images[n].key in before {
      var j :| 0 <= j < n && images[j].key == images[n].key && goals[j].Some?;
      assert images[..n][j] == images[j] && wanted[..n][j] == wanted[j];
    }
    assert goals[n].Some? ==> images[n].key == images[n].key;
  }

  function UrlGoal(c: Codec, o: Settings, image: Image): Option<string> {
    if UrlFor(c, o, image) != image.url then Some(UrlFor(c, o, image)) else None
  }

  function ThumbGoal(c: Codec, o: Settings, objects: map<ObjectKey, nat>, image: Image): Option<string> {
    if GoalThumbUrl(c, o, objects, image) != image.thumbUrl then Some(ThumbUrlFor(c, o, image)) else None
  }

  function UrlGoals(c: Codec, o: Settings, images: seq<Image>): seq<Option<string>> {
    seq(|images|, j requires 0 <= j < |images| => UrlGoal(c, o, images[j]))
  }

  function UrlsWanted(c: Codec, o: Settings, images: seq<Image>): seq<string> {
    seq(|images|, j requires 0 <= j < |images| => UrlFor(c, o, images[j]))
  }

  function ThumbsWanted(c: Codec, o: Settings, images: seq<Image>): seq<string> {
    seq(|images|, j requires 0 <= j < |images| => ThumbUrlFor(c, o, images[j]))
  }

  function ThumbGoals(c: Codec, o: Settings, objects: map<ObjectKey, nat>, images: seq<Image>): seq<Option<string>> {
    seq(|images|, j requires 0 <= j < |images| => ThumbGoal(c, o, objects, images[j]))
  }

  lemma {:induction false} NewUrlsAre(c: Codec, o: Settings, images: seq<Image>)
    ensures Records(images, UrlGoals(c, o, images), UrlsWanted(c, o, images), NewUrls(c, o, images))
    decreases |images|
  {
    if images != [] {
      var n := |images| - 1;
      NewUrlsAre(c, o, images[..n]);
      assert UrlGoals(c, o, images)[..n] == UrlGoals(c, o, images[..n]) &&
        UrlsWanted(c, o, images)[..n] == UrlsWanted(c, o, images[..n]);
      RecordStep(images, UrlGoals(c, o, images), UrlsWanted(c, o, images), NewUrls(c, o, images[..n]));
    }
  }

  // What is recorded for the small copies does not depend on when a photo is looked at.
  lemma {:induction false} NewThumbUrlsAre(c: Codec, o: Settings, s: Store, images: seq<Image>)
    requires OneFolderPerKey(o, images) && AllListed(s, images)
    ensures Records(images, ThumbGoals(c, o, s.objects, images), ThumbsWanted(c, o, images),
      NewThumbUrls(c, o, s, images))
    decreases |images|
  {
    if images != [] {
      var n := |images| - 1;
      NewThumbUrlsAre(c, o, s, images[..n]);
      assert ThumbGoals(c, o, s.objects, images)[..n] == ThumbGoals(c, o, s.objects, images[..n]);
      assert ThumbsWanted(c, o, images)[..n] == ThumbsWanted(c, o, images[..n]);
      GoalNow(c, o, s, images[..n], images[n]);
      RecordStep(images, ThumbGoals(c, o, s.objects, images), ThumbsWanted(c, o, images),
        NewThumbUrls(c, o, s, images[..n]));
    }
  }

  lemma GoalNow(c: Codec, o: Settings, s: Store, images: seq<Image>, image: Image)
    requires AllListed(s, images)
    ensures GoalThumbUrl(c, o, DoAll(s, ImagesOps(c, o, s, images)).objects, image) ==
      GoalThumbUrl(c, o, s.objects, image)
  {
    ImagesOpsSound(c, o, s, images);
    SoundStepsKeepGoals(c, o, s, ImagesOps(c, o, s, images));
  }

  // The photos of a listing with the addresses they should have.
  function Settled(c: Codec, o: Settings, objects: map<ObjectKey, nat>, images: seq<Image>): seq<Image> {
    seq(|images|, j requires 0 <= j < |images| =>
      images[j].(url := UrlFor(c, o, images[j]), thumbUrl := GoalThumbUrl(c, o, objects, images[j])))
  }

  function WithUrls(c: Codec, o: Settings, images: seq<Image>): seq<Image> {
    seq(|images|, j requires 0 <= j < |images| => images[j].(url := UrlFor(c, o, images[j])))
  }

  lemma RepointedIs(c: Codec, o: Settings, images: seq<Image>, urls: map<string, string>)
    requires Records(images, UrlGoals(c, o, images), UrlsWanted(c, o, images), urls)
    ensures Repointed(images, urls) == WithUrls(c, o, images)
    ensures urls != map[] ==> Repoints(o)
  {
    forall j | 0 <= j < |images| ensures Repointed(images, urls)[j] == WithUrls(c, o, images)[j] {
      assert UrlGoals(c, o, images)[j] == UrlGoal(c, o, images[j]);
    }
    if urls != map[] {
      var k :| k in urls;
      var j :| 0 <= j < |images| && images[j].key == k && UrlGoals(c, o, images)[j].Some?;
      assert UrlGoals(c, o, images)[j] == UrlGoal(c, o, images[j]);
    }
  }

  lemma RethumbedIs(c: Codec, o: Settings, objects: map<ObjectKey, nat>, images: seq<Image>,
      thumbs: map<string, string>)
    requires Records(images, ThumbGoals(c, o, objects, images), ThumbsWanted(c, o, images), thumbs)
    ensures Rethumbed(WithUrls(c, o, images), thumbs) == Settled(c, o, objects, images)
  {
    forall j | 0 <= j < |images|
      ensures Rethumbed(WithUrls(c, o, images), thumbs)[j] == Settled(c, o, objects, images)[j] {
      assert ThumbGoals(c, o, objects, images)[j] == ThumbGoal(c, o, objects, images[j]);
      if images[j].key in thumbs {
        RecordedIsReady(c, o, objects, images, thumbs, images[j].key);
      }
    }
  }

  // Only photos that have both objects in the end are recorded.
  lemma RecordedIsReady(c: Codec, o: Settings, objects: map<ObjectKey, nat>, images: seq<Image>,
      thumbs: map<string, string>, key: string)
    requires Records(images, ThumbGoals(c, o, objects, images), ThumbsWanted(c, o, images), thumbs) && key in thumbs
    ensures GoalFull(c, objects, key).Some? && GoalSmall(c, objects, key).Some?
  {
    var j :| 0 <= j < |images| && images[j].key == key && ThumbGoals(c, o, objects, images)[j].Some?;
    assert ThumbGoals(c, o, objects, images)[j] == ThumbGoal(c, o, objects, images[j]);
  }

  lemma UrlOpsSound(c: Codec, o: Settings, s: Store, i: nat, urls: map<string, string>)
    requires i < |s.listings| &&
      Records(s.listings[i], UrlGoals(c, o, s.listings[i]), UrlsWanted(c, o, s.listings[i]), urls)
    ensures SoundAll(c, o, s, UrlOps(i, urls))
    ensures DoAll(s, UrlOps(i, urls)) == s.(listings := s.listings[i := WithUrls(c, o, s.listings[i])])
  {
    var images := s.listings[i];
    RepointedIs(c, o, images, urls);
    if urls == map[] {
      assert WithUrls(c, o, images) == images;
    } else {
      forall image | image in images && image.key in urls ensures urls[image.key] == UrlFor(c, o, image) {
        var j :| 0 <= j < |images| && images[j] == image;
        assert UrlGoals(c, o, images)[j] == UrlGoal(c, o, image);
      }
      OneStepSound(c, o, s, SetImageUrls(i, urls));
    }
  }

  lemma ThumbsAreReady(c: Codec, o: Settings, s: Store, images: seq<Image>, objects: map<ObjectKey, nat>,
      thumbs: map<string, string>)
    requires SameObjectGoals(c, s.objects, objects) && AllAtGoal(c, s, images)
    requires Records(images, ThumbGoals(c, o, objects, images), ThumbsWanted(c, o, images), thumbs)
    ensures forall image :: image in WithUrls(c, o, images) && image.key in thumbs ==>
      Full(image.key) in s.objects && Small(image.key) in s.objects && thumbs[image.key] == ThumbUrlFor(c, o, image)
  {
    var changed := WithUrls(c, o, images);
    forall image | image in changed && image.key in thumbs
      ensures Full(image.key) in s.objects && Small(image.key) in s.objects &&
        thumbs[image.key] == ThumbUrlFor(c, o, image)
    {
      var j :| 0 <= j < |images| && changed[j] == image;
      RecordedIsReady(c, o, objects, images, thumbs, images[j].key);
      assert AtGoalKey(c, s, images[j].key);
      assert thumbs[images[j].key] == ThumbsWanted(c, o, images)[j];
    }
  }

  // The addresses of the small copies are written over a listing whose other addresses are in place.
  lemma ThumbOpsSound(c: Codec, o: Settings, s: Store, i: nat, images: seq<Image>, objects: map<ObjectKey, nat>,
      thumbs: map<string, string>)
    requires i < |s.listings| && s.listings[i] == WithUrls(c, o, images)
    requires SameObjectGoals(c, s.objects, objects) && AllAtGoal(c, s, images)
    requires Records(images, ThumbGoals(c, o, objects, images), ThumbsWanted(c, o, images), thumbs)
    ensures SoundAll(c, o, s, ThumbOps(i, thumbs))
    ensures DoAll(s, ThumbOps(i, thumbs)) == s.(listings := s.listings[i := Settled(c, o, objects, images)])
  {
    RethumbedIs(c, o, objects, images, thumbs);
    if thumbs == map[] {
      assert Rethumbed(WithUrls(c, o, images), map[]) == WithUrls(c, o, images);
      assert s.listings[i := s.listings[i]] == s.listings;
    } else {
      ThumbsAreReady(c, o, s, images, objects, thumbs);
      hide Records, AllAtGoal, SameObjectGoals, ThumbUrlFor, WithUrls;
      OneStepSound(c, o, s, SetThumbUrls(i, thumbs));
    }
  }

  lemma ListingIsListed(s: Store, i: nat)
    requires i < |s.listings|
    ensures AllListed(s, s.listings[i])
  {
    forall j | 0 <= j < |s.listings[i]| ensures Listed(s, s.listings[i][j].key) {
      assert s.listings[i][j].key == s.listings[i][j].key;
    }
  }

  lemma AddressesSound(c: Codec, o: Settings, s: Store, i: nat, objects: map<ObjectKey, nat>,
      urls: map<string, string>, thumbs: map<string, string>)
    requires i < |s.listings| && SameObjectGoals(c, s.objects, objects) && AllAtGoal(c, s, s.listings[i])
    requires Records(s.listings[i], UrlGoals(c, o, s.listings[i]), UrlsWanted(c, o, s.listings[i]), urls)
    requires Records(s.listings[i], ThumbGoals(c, o, objects, s.listings[i]), ThumbsWanted(c, o, s.listings[i]), thumbs)
    ensures SoundAll(c, o, s, UrlOps(i, urls) + ThumbOps(i, thumbs))
    ensures DoAll(s, UrlOps(i, urls) + ThumbOps(i, thumbs)) ==
      s.(listings := s.listings[i := Settled(c, o, objects, s.listings[i])])
  {
    hide Sound, SoundAll, Do, Records, AtGoalKey, SameObjectGoals;
    var images := s.listings[i];
    UrlOpsSound(c, o, s, i, urls);
    var t := DoAll(s, UrlOps(i, urls));
    StayAtGoal(c, o, s, UrlOps(i, urls), images);
    ThumbOpsSound(c, o, t, i, images, objects, thumbs);
    SoundConcat(c, o, s, UrlOps(i, urls), ThumbOps(i, thumbs));
    DoAllConcat(s, UrlOps(i, urls), ThumbOps(i, thumbs));
    assert s.listings[i := WithUrls(c, o, images)][i := Settled(c, o, objects, images)] ==
      s.listings[i := Settled(c, o, objects, images)];
  }

  lemma ListingOpsSound(c: Codec, o: Settings, s: Store, i: nat)
    requires i < |s.listings| && OneFolderPerKey(o, s.listings[i]) && !o.dryRun
    ensures SoundAll(c, o, s, ListingOps(c, o, s, i))
    ensures
      var t := DoAll(s, ListingOps(c, o, s, i));
      t.listings == s.listings[i := Settled(c, o, s.objects, s.listings[i])] && AllAtGoal(c, t, s.listings[i])
  {
    var images := s.listings[i];
    var urls, thumbs := NewUrls(c, o, images), NewThumbUrls(c, o, s, images);
    NewUrlsAre(c, o, images);
    ListingIsListed(s, i);
    NewThumbUrlsAre(c, o, s, images);
    ListingStep(c, o, s, i, urls, thumbs);
  }

  lemma ListingStep(c: Codec, o: Settings, s: Store, i: nat, urls: map<string, string>, thumbs: map<string, string>)
    requires i < |s.listings|
    requires Records(s.listings[i], UrlGoals(c, o, s.listings[i]), UrlsWanted(c, o, s.listings[i]), urls)
    requires Records(s.listings[i], ThumbGoals(c, o, s.objects, s.listings[i]), ThumbsWanted(c, o, s.listings[i]),
      thumbs)
    ensures
      var ops := ImagesOps(c, o, s, s.listings[i]) + (UrlOps(i, urls) + ThumbOps(i, thumbs));
      var t := DoAll(s, ops);
      && SoundAll(c, o, s, ops)
      && t.listings == s.listings[i := Settled(c, o, s.objects, s.listings[i])]
      && AllAtGoal(c, t, s.listings[i])
  {
    var images, a, b := s.listings[i], ImagesOps(c, o, s, s.listings[i]), UrlOps(i, urls) + ThumbOps(i, thumbs);
    ListingIsListed(s, i);
    ImagesOpsSound(c, o, s, images);
    SoundStepsKeepGoals(c, o, s, a);
    var t := DoAll(s, a);
    AddressesSound(c, o, t, i, s.objects, urls, thumbs);
    StayAtGoal(c, o, t, b, images);
    SoundConcat(c, o, s, a, b);
    DoAllConcat(s, a, b);
  }

  predicate AtGoalListing(c: Codec, o: Settings, s: Store, i: nat)
    requires i < |s.listings|
  {
    forall j :: 0 <= j < |s.listings[i]| ==> AtGoalImage(c, o, s, s.listings[i][j])
  }

  lemma SettledIsAtGoal(c: Codec, o: Settings, s: Store, i: nat)
    requires i < |s.listings| && OneFolderPerKey(o, s.listings[i]) && !o.dryRun
    ensures
      var t := DoAll(s, ListingOps(c, o, s, i));
      AtGoalListing(c, o, t, i) && SameGoals(c, o, t, s) && Forward(c, s, t)
  {
    var images, t := s.listings[i], DoAll(s, ListingOps(c, o, s, i));
    ListingOpsSound(c, o, s, i);
    SoundStepsKeepGoals(c, o, s, ListingOps(c, o, s, i));
    forall j | 0 <= j < |images| ensures AtGoalImage(c, o, t, t.listings[i][j]) {
      assert AtGoalKey(c, t, images[j].key);
      assert SameImageGoals(c, o, t.listings[i][j], images[j]);
      assert GoalThumbUrl(c, o, t.objects, t.listings[i][j]) == GoalThumbUrl(c, o, s.objects, images[j]);
    }
  }

  lemma OthersStayAtGoal(c: Codec, o: Settings, s: Store, t: Store, i: nat)
    requires i < |s.listings| && SameGoals(c, o, t, s) && Forward(c, s, t) && t.listings[i] == s.listings[i]
    requires AtGoalListing(c, o, s, i)
    ensures AtGoalListing(c, o, t, i)
  {
    forall j | 0 <= j < |t.listings[i]| ensures AtGoalImage(c, o, t, t.listings[i][j]) {
      assert AtGoalImage(c, o, s, s.listings[i][j]);
      StaysAtGoal(c, o, s, t, s.listings[i][j].key);
    }
  }

  lemma SameFolders(c: Codec, o: Settings, s: Store, t: Store)
    requires SameGoals(c, o, t, s) && OneFolderEach(o, s)
    ensures OneFolderEach(o, t)
  {
    forall i | 0 <= i < |t.listings| ensures OneFolderPerKey(o, t.listings[i]) {
      assert OneFolderPerKey(o, s.listings[i]);
      forall j | 0 <= j < |t.listings[i]| ensures SameImageGoals(c, o, t.listings[i][j], s.listings[i][j]) {
      }
    }
  }

  predicate AtGoalUpto(c: Codec, o: Settings, s: Store, n: nat)
    requires n <= |s.listings|
  {
    forall i :: 0 <= i < n ==> AtGoalListing(c, o, s, i)
  }

  lemma RunStep(c: Codec, o: Settings, s: Store, n: nat)
    requires n < |s.listings| && OneFolderEach(o, s) && AtGoalUpto(c, o, s, n) && !o.dryRun
    ensures
      var t := DoAll(s, ListingOps(c, o, s, n));
      SoundAll(c, o, s, ListingOps(c, o, s, n)) && AtGoalUpto(c, o, t, n + 1)
  {
    var t := DoAll(s, ListingOps(c, o, s, n));
    ListingOpsSound(c, o, s, n);
    SettledIsAtGoal(c, o, s, n);
    forall i | 0 <= i < n ensures AtGoalListing(c, o, t, i) {
      OthersStayAtGoal(c, o, s, t, i);
    }
  }

  // Steps that bring listing after listing to the goal.
  ghost predicate Progressing(c: Codec, o: Settings, steps: Steps) {
    forall s: Store, i: nat :: i < |s.listings| && OneFolderEach(o, s) && AtGoalUpto(c, o, s, i) ==>
      SoundAll(c, o, s, steps(s, i)) && AtGoalUpto(c, o, DoAll(s, steps(s, i)), i + 1)
  }

  lemma StepsProgress(c: Codec, o: Settings)
    requires !o.dryRun
    ensures Progressing(c, o, StepsOf(c, o))
  {
    forall s: Store, i: nat | i < |s.listings| && OneFolderEach(o, s) && AtGoalUpto(c, o, s, i)
      ensures SoundAll(c, o, s, StepsOf(c, o)(s, i)) && AtGoalUpto(c, o, DoAll(s, StepsOf(c, o)(s, i)), i + 1)
    {
      RunStep(c, o, s, i);
    }
  }

  lemma RunGoesOn(c: Codec, o: Settings, s: Store, before: seq<Op>, last: seq<Op>, n: nat)
    requires SoundAll(c, o, s, before) && SoundAll(c, o, DoAll(s, before), last)
    requires n < |s.listings| && AtGoalUpto(c, o, DoAll(DoAll(s, before), last), n + 1)
    ensures SoundAll(c, o, s, before + last) && AtGoalUpto(c, o, DoAll(s, before + last), n + 1)
  {
    SoundConcat(c, o, s, before, last);
    DoAllConcat(s, before, last);
  }

  // A run takes only sound steps, and the listings it has been through are as they should be.
  lemma {:induction false} RunIsSound(c: Codec, o: Settings, steps: Steps, s: Store, n: nat)
    requires n <= |s.listings| && OneFolderEach(o, s) && Progressing(c, o, steps)
    ensures SoundAll(c, o, s, RunOps(steps, s, n)) && AtGoalUpto(c, o, DoAll(s, RunOps(steps, s, n)), n)
  {
    hide AtGoalListing, Do, Sound, OneFolderEach, SameGoals, Forward;
    if n > 0 {
      RunIsSound(c, o, steps, s, n - 1);
      var before := RunOps(steps, s, n - 1);
      var t := DoAll(s, before);
      SoundStepsKeepGoals(c, o, s, before);
      SameFolders(c, o, s, t);
      RunGoesOn(c, o, s, before, steps(t, n - 1), n - 1);
    }
  }

  lemma SamePhotos(c: Codec, o: Settings, s: Store)
    ensures SameGoals(c, o, s, s) && Forward(c, s, s)
  {
  }

  // Whatever sound steps were done from t on, where t came from s.
  lemma StoppedKeepsGoals(c: Codec, o: Settings, s: Store, t: Store, ops: seq<Op>, stop: nat)
    requires SameGoals(c, o, t, s) && Forward(c, s, t) && SoundAll(c, o, t, ops)
    ensures SameGoals(c, o, DoAll(t, Stopped(ops, stop)), s) && Forward(c, s, DoAll(t, Stopped(ops, stop)))
  {
    var done := Stopped(ops, stop);
    if stop <= |ops| {
      SoundPrefix(c, o, t, ops, stop);
    }
    SoundStepsKeepGoals(c, o, t, done);
    GoalsCompose(c, o, DoAll(t, done), t, s);
    ForwardComposes(c, o, s, t, DoAll(t, done));
  }

  lemma {:induction false} CrashesKeepGoals(c: Codec, o: Settings, steps: Steps, s: Store, stops: seq<nat>)
    requires OneFolderEach(o, s) && Progressing(c, o, steps)
    ensures SameGoals(c, o, AfterCrashes(steps, s, stops), s) && Forward(c, s, AfterCrashes(steps, s, stops))
    decreases |stops|
  {
    if stops == [] {
      SamePhotos(c, o, s);
    } else {
      var n := |stops| - 1;
      var t := AfterCrashes(steps, s, stops[..n]);
      CrashesKeepGoals(c, o, steps, s, stops[..n]);
      SameFolders(c, o, s, t);
      RunIsSound(c, o, steps, t, |t.listings|);
      StoppedKeepsGoals(c, o, s, t, RunOps(steps, t, |t.listings|), stops[n]);
    }
  }

  predicate AtGoal(c: Codec, o: Settings, s: Store) {
    AtGoalUpto(c, o, s, |s.listings|)
  }

  lemma RunReachesGoal(c: Codec, o: Settings, steps: Steps, s: Store)
    requires OneFolderEach(o, s) && Progressing(c, o, steps)
    ensures AtGoal(c, o, Run(steps, s)) && SameGoals(c, o, Run(steps, s), s) && Forward(c, s, Run(steps, s))
  {
    RunIsSound(c, o, steps, s, |s.listings|);
    SoundStepsKeepGoals(c, o, s, RunOps(steps, s, |s.listings|));
  }

  // The new objects, the small copies and the stored addresses; old objects at the root may differ.
  ghost predicate SameResult(a: Store, b: Store) {
    && a.listings == b.listings
    && (forall k :: Full(k) in a.objects <==> Full(k) in b.objects)
    && (forall k :: Full(k) in a.objects && Full(k) in b.objects ==> a.objects[Full(k)] == b.objects[Full(k)])
    && (forall k :: Small(k) in a.objects <==> Small(k) in b.objects)
    && (forall k :: Small(k) in a.objects && Small(k) in b.objects ==> a.objects[Small(k)] == b.objects[Small(k)])
  }

  lemma ListedAtGoal(c: Codec, o: Settings, s: Store, key: string)
    requires AtGoal(c, o, s) && Listed(s, key)
    ensures AtGoalKey(c, s, key)
  {
    var i, j :| 0 <= i < |s.listings| && 0 <= j < |s.listings[i]| && s.listings[i][j].key == key;
    assert AtGoalListing(c, o, s, i);
    assert AtGoalImage(c, o, s, s.listings[i][j]);
  }

  lemma SameObjectsAtGoal(c: Codec, o: Settings, s: Store, a: Store, b: Store, key: string)
    requires SameGoals(c, o, a, s) && SameGoals(c, o, b, s) && Forward(c, s, a) && Forward(c, s, b)
    requires AtGoal(c, o, a) && AtGoal(c, o, b)
    ensures Full(key) in a.objects ==> Full(key) in b.objects && a.objects[Full(key)] == b.objects[Full(key)]
    ensures Small(key) in a.objects ==> Small(key) in b.objects && a.objects[Small(key)] == b.objects[Small(key)]
  {
    assert GoalFull(c, a.objects, key) == GoalFull(c, b.objects, key) &&
      GoalSmall(c, a.objects, key) == GoalSmall(c, b.objects, key);
    SameListed(c, o, b, s, key);
    if Listed(s, key) {
      ListedAtGoal(c, o, b, key);
    }
  }

  lemma SameAddressesAtGoal(c: Codec, o: Settings, s: Store, a: Store, b: Store)
    requires SameGoals(c, o, a, s) && SameGoals(c, o, b, s) && AtGoal(c, o, a) && AtGoal(c, o, b)
    ensures a.listings == b.listings
  {
    forall i | 0 <= i < |s.listings| ensures a.listings[i] == b.listings[i] {
      assert AtGoalListing(c, o, a, i) && AtGoalListing(c, o, b, i);
      forall j | 0 <= j < |s.listings[i]| ensures a.listings[i][j] == b.listings[i][j] {
        var x, y := a.listings[i][j], b.listings[i][j];
        assert AtGoalImage(c, o, a, x) && AtGoalImage(c, o, b, y);
        assert SameImageGoals(c, o, x, s.listings[i][j]) && SameImageGoals(c, o, y, s.listings[i][j]);
      }
    }
  }

  lemma GoalDeterminesResult(c: Codec, o: Settings, s: Store, a: Store, b: Store)
    requires SameGoals(c, o, a, s) && SameGoals(c, o, b, s) && Forward(c, s, a) && Forward(c, s, b)
    requires AtGoal(c, o, a) && AtGoal(c, o, b)
    ensures SameResult(a, b)
  {
    SameAddressesAtGoal(c, o, s, a, b);
    forall k
      ensures Full(k) in a.objects ==> Full(k) in b.objects && a.objects[Full(k)] == b.objects[Full(k)]
      ensures Small(k) in a.objects ==> Small(k) in b.objects && a.objects[Small(k)] == b.objects[Small(k)]
      ensures Full(k) in b.objects ==> Full(k) in a.objects
      ensures Small(k) in b.objects ==> Small(k) in a.objects
    {
      SameObjectsAtGoal(c, o, s, a, b, k);
      SameObjectsAtGoal(c, o, s, b, a, k);
    }
  }

  lemma RestartedRun(c: Codec, o: Settings, steps: Steps, s: Store, stops: seq<nat>)
    requires OneFolderEach(o, s) && Progressing(c, o, steps)
    ensures SameResult(Run(steps, AfterCrashes(steps, s, stops)), Run(steps, s))
  {
    var t := AfterCrashes(steps, s, stops);
    CrashesKeepGoals(c, o, steps, s, stops);
    SameFolders(c, o, s, t);
    RunReachesGoal(c, o, steps, t);
    RunReachesGoal(c, o, steps, s);
    var a := Run(steps, t);
    GoalsCompose(c, o, a, t, s);
    ForwardComposes(c, o, s, t, a);
    GoalDeterminesResult(c, o, s, a, Run(steps, s));
  }

  lemma {:induction false} NoImageOps(c: Codec, o: Settings, s: Store, images: seq<Image>)
    requires forall j :: 0 <= j < |images| ==> AtGoalImage(c, o, s, images[j])
    ensures ImagesOps(c, o, s, images) == [] && NewUrls(c, o, images) == map[] && NewThumbUrls(c, o, s, images) == map[]
    decreases |images|
  {
    if images != [] {
      var n := |images| - 1;
      forall j | 0 <= j < n ensures AtGoalImage(c, o, s, images[..n][j]) {
        assert images[..n][j] == images[j];
      }
      NoImageOps(c, o, s, images[..n]);
      assert AtGoalImage(c, o, s, images[n]);
    }
  }

  lemma {:induction false} NothingToDo(steps: Steps, s: Store, n: nat)
    requires n <= |s.listings| && forall i: nat :: i < |s.listings| ==> steps(s, i) == []
    ensures RunOps(steps, s, n) == []
  {
    if n > 0 {
      NothingToDo(steps, s, n - 1);
    }
  }

  /* ----- Results ----- */

  // At every point of every run, after any number of crashes, each photo that had its bytes still has
  // them: the old object untouched, or the new one made from it.
  lemma NoPhotoIsLost(c: Codec, o: Settings, s: Store, stops: seq<nat>, key: string)
    requires OneFolderEach(o, s) && !o.dryRun && (Root(key) in s.objects || Full(key) in s.objects)
    ensures
      var t := AfterCrashes(StepsOf(c, o), s, stops);
      || (Root(key) in s.objects && Root(key) in t.objects && t.objects[Root(key)] == s.objects[Root(key)])
      || (Full(key) in t.objects && GoalFull(c, s.objects, key) == Some(t.objects[Full(key)]))
  {
    StepsProgress(c, o);
    CrashesKeepGoals(c, o, StepsOf(c, o), s, stops);
    var t := AfterCrashes(StepsOf(c, o), s, stops);
    assert GoalFull(c, t.objects, key) == GoalFull(c, s.objects, key);
  }

  // A run after any number of crashes has the result of one clean run.
  lemma RestartEqualsOneRun(c: Codec, o: Settings, s: Store, stops: seq<nat>)
    requires OneFolderEach(o, s) && !o.dryRun
    ensures SameResult(Run(StepsOf(c, o), AfterCrashes(StepsOf(c, o), s, stops)), Run(StepsOf(c, o), s))
  {
    StepsProgress(c, o);
    RestartedRun(c, o, StepsOf(c, o), s, stops);
  }

  // What the result is: every listed photo that can be converted has its new object, every one whose
  // small copy can be made has that too, and the addresses are the ones wanted.
  lemma RunSettlesEverything(c: Codec, o: Settings, s: Store, i: nat, j: nat)
    requires OneFolderEach(o, s) && !o.dryRun && i < |s.listings| && j < |s.listings[i]|
    ensures
      var t, image := Run(StepsOf(c, o), s), s.listings[i][j];
      && |t.listings| == |s.listings| && |t.listings[i]| == |s.listings[i]|
      && t.listings[i][j] == image.(url := UrlFor(c, o, image), thumbUrl := GoalThumbUrl(c, o, s.objects, image))
      && (GoalFull(c, s.objects, image.key).Some? ==>
        Full(image.key) in t.objects && t.objects[Full(image.key)] == GoalFull(c, s.objects, image.key).value)
      && (GoalSmall(c, s.objects, image.key).Some? ==>
        Small(image.key) in t.objects && t.objects[Small(image.key)] == GoalSmall(c, s.objects, image.key).value)
  {
    StepsProgress(c, o);
    RunReachesGoal(c, o, StepsOf(c, o), s);
    SettledPhoto(c, o, s, Run(StepsOf(c, o), s), i, j);
  }

  lemma SettledPhoto(c: Codec, o: Settings, s: Store, t: Store, i: nat, j: nat)
    requires SameGoals(c, o, t, s) && AtGoal(c, o, t) && i < |s.listings| && j < |s.listings[i]|
    ensures
      var image := s.listings[i][j];
      && t.listings[i][j] == image.(url := UrlFor(c, o, image), thumbUrl := GoalThumbUrl(c, o, s.objects, image))
      && (GoalFull(c, s.objects, image.key).Some? ==>
        Full(image.key) in t.objects && t.objects[Full(image.key)] == GoalFull(c, s.objects, image.key).value)
      && (GoalSmall(c, s.objects, image.key).Some? ==>
        Small(image.key) in t.objects && t.objects[Small(image.key)] == GoalSmall(c, s.objects, image.key).value)
  {
    assert AtGoalListing(c, o, t, i);
    assert AtGoalImage(c, o, t, t.listings[i][j]);
    assert SameImageGoals(c, o, t.listings[i][j], s.listings[i][j]);
    assert GoalFull(c, t.objects, s.listings[i][j].key) == GoalFull(c, s.objects, s.listings[i][j].key);
  }

  // A run after a finished run writes, removes and updates nothing.
  lemma SecondRunDoesNothing(c: Codec, o: Settings, s: Store)
    requires OneFolderEach(o, s) && !o.dryRun
    ensures RunOps(StepsOf(c, o), Run(StepsOf(c, o), s), |s.listings|) == []
  {
    StepsProgress(c, o);
    RunReachesGoal(c, o, StepsOf(c, o), s);
    var t := Run(StepsOf(c, o), s);
    forall i: nat | i < |t.listings| ensures StepsOf(c, o)(t, i) == [] {
      assert AtGoalListing(c, o, t, i);
      NoImageOps(c, o, t, t.listings[i]);
    }
    NothingToDo(StepsOf(c, o), t, |t.listings|);
  }

  // A dry run changes nothing.
  lemma DryRunDoesNothing(c: Codec, o: Settings, s: Store)
    requires o.dryRun
    ensures Run(StepsOf(c, o), s) == s
  {
    forall i: nat | i < |s.listings| ensures StepsOf(c, o)(s, i) == [] {
    }
    NothingToDo(StepsOf(c, o), s, |s.listings|);
  }
}
