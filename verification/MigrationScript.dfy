/** The migration script as it runs: it leaves the store of the run it is modelled by, and a dry run
    predicts its summary unless a photo with work left is listed twice. */
module MigrationScript {
  import opened Options
  import opened Migration

  datatype Summary = Summary(migrated: nat, alreadyMigrated: nat, missing: nat, failed: nat, urlsRewritten: nat,
      thumbsCreated: nat)

  // What one photo adds to the summary.
  function Counted(c: Codec, objects: map<ObjectKey, nat>, key: string, sum: Summary): Summary {
    var full := GoalFull(c, objects, key);
    var moved :=
      if Full(key) in objects then sum.(alreadyMigrated := sum.alreadyMigrated + 1)
      else if Root(key) !in objects then sum.(missing := sum.missing + 1)
      else if full.None? then sum.(failed := sum.failed + 1)
      else sum.(migrated := sum.migrated + 1);
    if full.None? || Small(key) in objects then moved
    else if c.small(full.value).None? then moved.(failed := moved.failed + 1)
    else moved.(thumbsCreated := moved.thumbsCreated + 1)
  }

  // The objects after one photo.
  function AfterImage(c: Codec, o: Settings, objects: map<ObjectKey, nat>, key: string): map<ObjectKey, nat> {
    var full, small := GoalFull(c, objects, key), GoalSmall(c, objects, key);
    var moved :=
      if Full(key) in objects || full.None? then objects
      else if o.keepLegacy then objects[Full(key) := full.value]
      else objects[Full(key) := full.value] - {Root(key)};
    if full.None? || Small(key) in objects || small.None? then moved else moved[Small(key) := small.value]
  }

  lemma ImageOpsDo(c: Codec, o: Settings, s: Store, key: string)
    ensures DoAll(s, ImageOps(c, o, s.objects, key)) == s.(objects := AfterImage(c, o, s.objects, key))
  {
    var full, small := GoalFull(c, s.objects, key), GoalSmall(c, s.objects, key);
    var move := if Full(key) in s.objects || full.None? then []
      else [Write(Full(key), full.value)] + if o.keepLegacy then [] else [Remove(Root(key))];
    var shrink := if full.None? || Small(key) in s.objects || small.None? then [] else [Write(Small(key), small.value)];
    if move != [] {
      assert [Write(Full(key), full.value)] + [] == [Write(Full(key), full.value)];
      DoOne(s, Write(Full(key), full.value));
      DoOne(Do(s, Write(Full(key), full.value)), Remove(Root(key)));
      DoAllConcat(s, [Write(Full(key), full.value)], [Remove(Root(key))]);
    }
    DoAllConcat(s, move, shrink);
    if shrink != [] {
      DoOne(DoAll(s, move), Write(Small(key), small.value));
    }
  }

  lemma DoOne(s: Store, op: Op)
    ensures DoAll(s, [op]) == Do(s, op)
  {
    assert [op][..0] == [];
  }

  // The objects as a run leaves them and the summary so far.
  datatype Tally = Tally(objects: map<ObjectKey, nat>, sum: Summary)

  function CountKeys(c: Codec, o: Settings, t: Tally, keys: seq<string>): Tally
    decreases |keys|
  {
    if keys == [] then t
    else
      var before, key := CountKeys(c, o, t, keys[..|keys| - 1]), keys[|keys| - 1];
      Tally(if o.dryRun then before.objects
        else AfterImage(c, o, before.objects, key), Counted(c, before.objects, key, before.sum))
  }

  function KeysOf(images: seq<Image>): seq<string> {
    seq(|images|, j requires 0 <= j < |images| => images[j].key)
  }

  function CountListing(c: Codec, o: Settings, t: Tally, images: seq<Image>): Tally {
    var after := CountKeys(c, o, t, KeysOf(images));
    after.(sum := after.sum.(urlsRewritten := after.sum.urlsRewritten + |NewUrls(c, o, images)|))
  }

  function CountListings(c: Codec, o: Settings, t: Tally, listings: seq<seq<Image>>): Tally
    decreases |listings|
  {
    if listings == [] then t
    else CountListing(c, o, CountListings(c, o, t, listings[..|listings| - 1]), listings[|listings| - 1])
  }

  // The summary of a run, dry or not.
  function Total(c: Codec, o: Settings, s: Store): Summary {
    CountListings(c, o, Tally(s.objects, Summary(0, 0, 0, 0, 0, 0)), s.listings).sum
  }

  /* ----- When a dry run predicts the summary ----- */

  // The new objects one photo would get: its full one, its small copy.
  function Work(c: Codec, objects: map<ObjectKey, nat>, key: string): nat {
    var full := GoalFull(c, objects, key);
    (if full.Some? && Full(key) !in objects then 1 else 0) +
    (if full.Some? && Small(key) !in objects && c.small(full.value).Some? then 1 else 0)
  }

  function AllKeys(listings: seq<seq<Image>>): seq<string>
    decreases |listings|
  {
    if listings == [] then [] else AllKeys(listings[..|listings| - 1]) + KeysOf(listings[|listings| - 1])
  }

  // No photo with work left is listed twice, in one listing or in two.
  predicate NoWorkTwice(c: Codec, objects: map<ObjectKey, nat>, keys: seq<string>) {
    forall i, j :: 0 <= i < j < |keys| && keys[i] == keys[j] ==> Work(c, objects, keys[i]) == 0
  }

  predicate SameFor(key: string, a: map<ObjectKey, nat>, b: map<ObjectKey, nat>) {
    && (Root(key) in a <==> Root(key) in b) && (Root(key) in a ==> a[Root(key)] == b[Root(key)])
    && (Full(key) in a <==> Full(key) in b) && (Full(key) in a ==> a[Full(key)] == b[Full(key)])
    && (Small(key) in a <==> Small(key) in b) && (Small(key) in a ==> a[Small(key)] == b[Small(key)])
  }

  lemma AfterImageIs(c: Codec, o: Settings, objects: map<ObjectKey, nat>, key: string)
    ensures Work(c, AfterImage(c, o, objects, key), key) == 0
    ensures Work(c, objects, key) == 0 ==> AfterImage(c, o, objects, key) == objects
    ensures forall other :: other != key ==> SameFor(other, AfterImage(c, o, objects, key), objects)
  {
  }

  lemma CountedAdds(c: Codec, a: map<ObjectKey, nat>, b: map<ObjectKey, nat>, key: string, sum: Summary)
    ensures
      var after := Counted(c, a, key, sum);
      after.migrated + after.thumbsCreated == sum.migrated + sum.thumbsCreated + Work(c, a, key) &&
        after.urlsRewritten == sum.urlsRewritten
    ensures SameFor(key, a, b) ==>
      Counted(c, a, key, sum) == Counted(c, b, key, sum) && Work(c, a, key) == Work(c, b, key)
  {
  }

  // Photos not reached yet, and those without work, are as they were; those reached have none left.
  ghost predicate Along(c: Codec, start: map<ObjectKey, nat>, now: map<ObjectKey, nat>, keys: seq<string>) {
    forall k :: (k !in keys || Work(c, start, k) == 0 ==> SameFor(k, now, start)) &&
      (k in keys ==> Work(c, now, k) == 0)
  }

  lemma AlongStep(c: Codec, o: Settings, start: map<ObjectKey, nat>, now: map<ObjectKey, nat>, keys: seq<string>,
      key: string)
    requires Along(c, start, now, keys)
    ensures Along(c, start, AfterImage(c, o, now, key), keys + [key])
  {
    AfterImageIs(c, o, now, key);
    var sum := Summary(0, 0, 0, 0, 0, 0);
    forall k ensures (k !in keys + [key] || Work(c, start, k) == 0 ==> SameFor(k, AfterImage(c, o, now, key), start)) &&
        (k in keys + [key] ==> Work(c, AfterImage(c, o, now, key), k) == 0) {
      CountedAdds(c, now, start, k, sum);
      CountedAdds(c, AfterImage(c, o, now, key), now, k, sum);
    }
  }

  lemma NoWorkTwiceStep(c: Codec, objects: map<ObjectKey, nat>, keys: seq<string>)
    requires keys != []
    ensures
      var n := |keys| - 1;
      NoWorkTwice(c, objects, keys) <==>
        NoWorkTwice(c, objects, keys[..n]) && (keys[n] in keys[..n] ==> Work(c, objects, keys[n]) == 0)
  {
    var n := |keys| - 1;
    if NoWorkTwice(c, objects, keys) && keys[n] in keys[..n] {
      var i :| 0 <= i < n && keys[i] == keys[n];
    }
  }

  // A run makes as many objects as the dry run counts, or fewer; as many only if no work is counted
  // twice, and then the summaries are equal.
  lemma {:induction false} RunAgainstDryRun(c: Codec, o: Settings, start: map<ObjectKey, nat>, zero: Summary,
      keys: seq<string>)
    requires !o.dryRun
    ensures
      var made, dry := CountKeys(c, o, Tally(start, zero), keys),
        CountKeys(c, o.(dryRun := true), Tally(start, zero), keys);
      && dry.objects == start && Along(c, start, made.objects, keys)
      && made.sum.migrated + made.sum.thumbsCreated <= dry.sum.migrated + dry.sum.thumbsCreated
      && (NoWorkTwice(c, start, keys) ==> made.sum == dry.sum)
      && (made.sum.migrated + made.sum.thumbsCreated == dry.sum.migrated + dry.sum.thumbsCreated ==>
        NoWorkTwice(c, start, keys))
    decreases |keys|
  {
    if keys != [] {
      var n := |keys| - 1;
      RunAgainstDryRun(c, o, start, zero, keys[..n]);
      var made, dry := CountKeys(c, o, Tally(start, zero), keys[..n]),
        CountKeys(c, o.(dryRun := true), Tally(start, zero), keys[..n]);
      AlongStep(c, o, start, made.objects, keys[..n], keys[n]);
      assert keys[..n] + [keys[n]] == keys;
      CountedAdds(c, made.objects, start, keys[n], made.sum);
      CountedAdds(c, start, start, keys[n], dry.sum);
      NoWorkTwiceStep(c, start, keys);
      hide Counted, Work, SameFor, AfterImage;
    }
  }

  lemma {:induction false} CountKeysConcat(c: Codec, o: Settings, t: Tally, a: seq<string>, b: seq<string>)
    ensures CountKeys(c, o, t, a + b) == CountKeys(c, o, CountKeys(c, o, t, a), b)
    decreases |b|
  {
    if b == [] {
      assert a + b == a;
    } else {
      var n := |b| - 1;
      assert (a + b)[..|a| + n] == a + b[..n];
      CountKeysConcat(c, o, t, a, b[..n]);
    }
  }

  function WithUrlCount(t: Tally, urls: nat): Tally {
    t.(sum := t.sum.(urlsRewritten := urls))
  }

  // The rewritten addresses are counted apart from everything else.
  lemma {:induction false} UrlsCountedApart(c: Codec, o: Settings, t: Tally, keys: seq<string>, urls: nat)
    ensures CountKeys(c, o, WithUrlCount(t, urls), keys) == WithUrlCount(CountKeys(c, o, t, keys), urls)
    ensures CountKeys(c, o, t, keys).sum.urlsRewritten == t.sum.urlsRewritten
    decreases |keys|
  {
    if keys != [] {
      UrlsCountedApart(c, o, t, keys[..|keys| - 1], urls);
    }
  }

  function UrlCount(c: Codec, o: Settings, listings: seq<seq<Image>>): nat
    decreases |listings|
  {
    if listings == [] then 0 else UrlCount(c, o, listings[..|listings| - 1]) + |NewUrls(c, o, listings[|listings| - 1])|
  }

  lemma {:induction false} ListingsAsKeys(c: Codec, o: Settings, t: Tally, listings: seq<seq<Image>>)
    requires t.sum.urlsRewritten == 0
    ensures CountListings(c, o, t, listings) ==
      WithUrlCount(CountKeys(c, o, t, AllKeys(listings)), UrlCount(c, o, listings))
    decreases |listings|
  {
    if listings != [] {
      var n := |listings| - 1;
      ListingsAsKeys(c, o, t, listings[..n]);
      var before := CountKeys(c, o, t, AllKeys(listings[..n]));
      CountKeysConcat(c, o, t, AllKeys(listings[..n]), KeysOf(listings[n]));
      UrlsCountedApart(c, o, before, KeysOf(listings[n]), UrlCount(c, o, listings[..n]));
    }
  }

  lemma {:induction false} DryNewUrls(c: Codec, o: Settings, images: seq<Image>)
    ensures NewUrls(c, o.(dryRun := true), images) == NewUrls(c, o, images)
    decreases |images|
  {
    if images != [] {
      DryNewUrls(c, o, images[..|images| - 1]);
    }
  }

  lemma {:induction false} DryUrlCount(c: Codec, o: Settings, listings: seq<seq<Image>>)
    ensures UrlCount(c, o.(dryRun := true), listings) == UrlCount(c, o, listings)
    decreases |listings|
  {
    if listings != [] {
      DryUrlCount(c, o, listings[..|listings| - 1]);
      DryNewUrls(c, o, listings[|listings| - 1]);
    }
  }

  // The summary of a run is the one a dry run gives if and only if no photo with work left is listed
  // twice.
  lemma DryRunPredictsIff(c: Codec, o: Settings, s: Store)
    requires !o.dryRun
    ensures Total(c, o, s) == Total(c, o.(dryRun := true), s) <==> NoWorkTwice(c, s.objects, AllKeys(s.listings))
  {
    var zero := Summary(0, 0, 0, 0, 0, 0);
    RunAgainstDryRun(c, o, s.objects, zero, AllKeys(s.listings));
    ListingsAsKeys(c, o, Tally(s.objects, zero), s.listings);
    ListingsAsKeys(c, o.(dryRun := true), Tally(s.objects, zero), s.listings);
    UrlsCountedApart(c, o, Tally(s.objects, zero), AllKeys(s.listings), 0);
    UrlsCountedApart(c, o.(dryRun := true), Tally(s.objects, zero), AllKeys(s.listings), 0);
    DryUrlCount(c, o, s.listings);
  }

  /* ----- The script ----- */

  // One more photo of the listing, in each of the lists that grow with it.
  lemma NextUrl(c: Codec, o: Settings, images: seq<Image>, j: nat)
    requires j < |images|
    ensures
      var before, image := NewUrls(c, o, images[..j]), images[j];
      NewUrls(c, o, images[..j + 1]) ==
        if UrlFor(c, o, image) != image.url then before[image.key := UrlFor(c, o, image)] else before
  {
    assert images[..j + 1][..j] == images[..j];
  }

  lemma NextCount(c: Codec, o: Settings, t: Tally, images: seq<Image>, j: nat)
    requires j < |images|
    ensures
      var before, key := CountKeys(c, o, t, KeysOf(images[..j])), images[j].key;
      CountKeys(c, o, t, KeysOf(images[..j + 1])) ==
        Tally(if o.dryRun then before.objects
          else AfterImage(c, o, before.objects, key), Counted(c, before.objects, key, before.sum))
  {
    assert KeysOf(images[..j + 1])[..j] == KeysOf(images[..j]);
  }

  lemma NextListing(c: Codec, o: Settings, t: Tally, listings: seq<seq<Image>>, i: nat)
    requires i < |listings|
    ensures CountListings(c, o, t, listings[..i + 1]) ==
      CountListing(c, o, CountListings(c, o, t, listings[..i]), listings[i])
  {
    assert listings[..i + 1][..i] == listings[..i];
  }

  lemma NextImage(c: Codec, o: Settings, s: Store, images: seq<Image>, j: nat)
    requires j < |images|
    ensures
      var t, image, before := DoAll(s, ImagesOps(c, o, s, images[..j])), images[j], NewThumbUrls(c, o, s, images[..j]);
      && DoAll(s, ImagesOps(c, o, s, images[..j + 1])) == t.(objects := AfterImage(c, o, t.objects, image.key))
      && NewThumbUrls(c, o, s, images[..j + 1]) ==
           if ThumbGoal(c, o, t.objects, image).Some? then before[image.key := ThumbGoal(c, o, t.objects, image).value]
             else before
  {
    var t := DoAll(s, ImagesOps(c, o, s, images[..j]));
    assert images[..j + 1][..j] == images[..j];
    ImageOpsDo(c, o, t, images[j].key);
    DoAllConcat(s, ImagesOps(c, o, s, images[..j]), ImageOps(c, o, t.objects, images[j].key));
  }

  lemma AddressOpsDo(s: Store, i: nat, urls: map<string, string>, thumbs: map<string, string>)
    requires i < |s.listings|
    ensures
      var u := if urls == map[] then s else s.(listings := s.listings[i := Repointed(s.listings[i], urls)]);
      var v := if thumbs == map[] then u else u.(listings := u.listings[i := Rethumbed(u.listings[i], thumbs)]);
      DoAll(s, UrlOps(i, urls) + ThumbOps(i, thumbs)) == v
  {
    DoAllConcat(s, UrlOps(i, urls), ThumbOps(i, thumbs));
    DoOne(s, SetImageUrls(i, urls));
    DoOne(DoAll(s, UrlOps(i, urls)), SetThumbUrls(i, thumbs));
  }

  // The function that says what a run does with each listing.
  ghost predicate Follows(c: Codec, o: Settings, steps: Steps) {
    forall s: Store, i: nat {:trigger ListingOps(c, o, s, i)} :: steps(s, i) == ListingOps(c, o, s, i)
  }

  class ListingImageMigration {
    const c: Codec
    const o: Settings
    var objects: map<ObjectKey, nat>
    var listings: seq<seq<Image>>

    constructor (c: Codec, o: Settings, s: Store)
      ensures this.c == c && this.o == o && objects == s.objects && listings == s.listings
    {
      this.c := c;
      this.o := o;
      objects := s.objects;
      listings := s.listings;
    }

    // One photo: returns the address to record for its small copy, if it changes.
    method MigrateImage(image: Image, sum: Summary) returns (newThumbUrl: Option<string>, after: Summary)
      modifies this`objects
      ensures objects == if o.dryRun then old(objects) else AfterImage(c, o, old(objects), image.key)
      ensures newThumbUrl == ThumbGoal(c, o, old(objects), image)
      ensures after == Counted(c, old(objects), image.key, sum)
    {
      var full, thumbUrl := 0, ThumbUrlFor(c, o, image);
      after := sum;
      if Full(image.key) in objects {
        after := after.(alreadyMigrated := after.alreadyMigrated + 1);
        if image.thumbUrl == Some(thumbUrl) && Small(image.key) in objects { return None, after; }
        full := objects[Full(image.key)];
      } else if Root(image.key) !in objects {
        return None, after.(missing := after.missing + 1);
      } else {
        var original := objects[Root(image.key)];
        var converted := if c.clean(original) then Some(original) else c.full(original);
        if converted.None? { return None, after.(failed := after.failed + 1); }
        full := converted.value;
        if !o.dryRun {
          objects := objects[Full(image.key) := full];
          if !o.keepLegacy { objects := objects - {Root(image.key)}; }
        }
        after := after.(migrated := after.migrated + 1);
      }
      if Small(image.key) !in objects {
        var thumb := c.small(full);
        if thumb.None? { return None, after.(failed := after.failed + 1); }
        if !o.dryRun { objects := objects[Small(image.key) := thumb.value]; }
        after := after.(thumbsCreated := after.thumbsCreated + 1);
      }
      newThumbUrl := if image.thumbUrl != Some(thumbUrl) then Some(thumbUrl) else None;
    }

    // The photos of one listing: returns the addresses to record.
    method MigrateImages(images: seq<Image>, sum: Summary)
      returns (newUrls: map<string, string>, newThumbUrls: map<string, string>, after: Summary)
      modifies this`objects
      ensures newUrls == NewUrls(c, o, images)
      ensures if o.dryRun then objects == old(objects)
              else
                && Store(objects, listings) ==
                  DoAll(Store(old(objects), listings), ImagesOps(c, o, Store(old(objects), listings), images))
                && newThumbUrls == NewThumbUrls(c, o, Store(old(objects), listings), images)
      ensures Tally(objects, after) == CountKeys(c, o, Tally(old(objects), sum), KeysOf(images))
    {
      ghost var s := Store(objects, listings);
      newUrls, newThumbUrls, after := map[], map[], sum;
      for j := 0 to |images|
        invariant newUrls == NewUrls(c, o, images[..j])
        invariant o.dryRun ==> objects == s.objects
        invariant !o.dryRun ==> Store(objects, listings) == DoAll(s, ImagesOps(c, o, s, images[..j]))
        invariant !o.dryRun ==> newThumbUrls == NewThumbUrls(c, o, s, images[..j])
        invariant Tally(objects, after) == CountKeys(c, o, Tally(s.objects, sum), KeysOf(images[..j]))
      {
        var image := images[j];
        if o.publicUrl.Some? && o.publicUrl.value != "" {
          var url := UrlFor(c, o, image);
          if image.url != url { newUrls := newUrls[image.key := url]; }
        }
        NextUrl(c, o, images, j);
        NextCount(c, o, Tally(s.objects, sum), images, j);
        if !o.dryRun {
          NextImage(c, o, s, images, j);
        }
        var newThumbUrl: Option<string>;
        newThumbUrl, after := MigrateImage(image, after);
        if newThumbUrl.Some? { newThumbUrls := newThumbUrls[image.key := newThumbUrl.value]; }
      }
      assert images[..|images|] == images;
    }

    // The addresses of a listing's photos, in up to two writes.
    method WriteAddresses(i: nat, newUrls: map<string, string>, newThumbUrls: map<string, string>)
      requires i < |listings|
      modifies this`listings
      ensures o.dryRun ==> listings == old(listings)
      ensures !o.dryRun ==>
        Store(objects, listings) == DoAll(Store(objects, old(listings)), UrlOps(i, newUrls) + ThumbOps(i, newThumbUrls))
      ensures |listings| == |old(listings)| && forall m :: 0 <= m < |listings| && m != i ==>
        listings[m] == old(listings)[m]
    {
      if newUrls != map[] && !o.dryRun { listings := listings[i := Repointed(listings[i], newUrls)]; }
      if newThumbUrls != map[] && !o.dryRun { listings := listings[i := Rethumbed(listings[i], newThumbUrls)]; }
      AddressOpsDo(Store(objects, old(listings)), i, newUrls, newThumbUrls);
    }

    // One listing: its photos, then their addresses.
    method MigrateListing(i: nat, sum: Summary, ghost steps: Steps) returns (after: Summary)
      requires i < |listings| && Follows(c, o, steps)
      modifies this
      ensures Store(objects, listings) ==
        DoAll(Store(old(objects), old(listings)), steps(Store(old(objects), old(listings)), i))
      ensures |listings| == |old(listings)| && forall m :: 0 <= m < |listings| && m != i ==>
        listings[m] == old(listings)[m]
      ensures Tally(objects, after) == CountListing(c, o, Tally(old(objects), sum), old(listings)[i])
    {
      ghost var s := Store(objects, listings);
      var images := listings[i];
      var newUrls: map<string, string>, newThumbUrls: map<string, string>;
      newUrls, newThumbUrls, after := MigrateImages(images, sum);
      after := after.(urlsRewritten := after.urlsRewritten + |newUrls|);
      WriteAddresses(i, newUrls, newThumbUrls);
      assert steps(s, i) == ListingOps(c, o, s, i);
      DoAllConcat(s, ImagesOps(c, o, s, images), UrlOps(i, newUrls) + ThumbOps(i, newThumbUrls));
    }

    // Every listing in turn.
    method MigrateListings(ghost steps: Steps) returns (sum: Summary)
      requires Follows(c, o, steps)
      modifies this
      ensures Store(objects, listings) == Run(steps, Store(old(objects), old(listings)))
      ensures sum == Total(c, o, Store(old(objects), old(listings)))
    {
      ghost var s := Store(objects, listings);
      sum := Summary(0, 0, 0, 0, 0, 0);
      ghost var start := Tally(objects, sum);
      for i := 0 to |listings|
        invariant |listings| == |s.listings|
        invariant Store(objects, listings) == DoAll(s, RunOps(steps, s, i))
        invariant forall m :: i <= m < |listings| ==> listings[m] == s.listings[m]
        invariant Tally(objects, sum) == CountListings(c, o, start, s.listings[..i])
      {
        ghost var t := Store(objects, listings);
        sum := MigrateListing(i, sum, steps);
        DoAllConcat(s, RunOps(steps, s, i), steps(t, i));
        NextListing(c, o, start, s.listings, i);
      }
      assert s.listings[..|s.listings|] == s.listings;
    }

    // The whole script: the store of the run it is modelled by, and the summary of that run.
    method MigrateListingImages() returns (sum: Summary)
      modifies this
      ensures Store(objects, listings) == Run(StepsOf(c, o), Store(old(objects), old(listings)))
      ensures sum == Total(c, o, Store(old(objects), old(listings)))
    {
      sum := MigrateListings(StepsOf(c, o));
    }
  }
}
