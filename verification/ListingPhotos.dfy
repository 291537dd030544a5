/** The photos of one listing: the dealer's add, reorder and delete, and the worker's append. */
module ListingPhotos {
  import opened Options

  datatype Photo = Photo(key: string, url: string, thumbUrl: Option<string>, alt: Option<string>, order: nat)

  function Keys(photos: seq<Photo>): seq<string> {
    seq(|photos|, i requires 0 <= i < |photos| => photos[i].key)
  }

  // An empty text is not stored.
  function Kept(text: Option<string>): Option<string> {
    if text == Some("") then None else text
  }

  function AtPosition(photo: Photo, order: nat): Photo {
    Photo(photo.key, photo.url, Kept(photo.thumbUrl), Kept(photo.alt), order)
  }

  /* ----- What the dealer sees ----- */

  // A stable sort by order.
  function InsertByOrder(photos: seq<Photo>, p: Photo): seq<Photo>
    decreases |photos|
  {
    var n := |photos|;
    if n == 0 || photos[n - 1].order <= p.order then photos + [p]
    else InsertByOrder(photos[..n - 1], p) + [photos[n - 1]]
  }

  function Displayed(photos: seq<Photo>): seq<Photo>
    decreases |photos|
  {
    var n := |photos|;
    if n == 0 then [] else InsertByOrder(Displayed(photos[..n - 1]), photos[n - 1])
  }

  predicate Ascending(photos: seq<Photo>) {
    forall i, j :: 0 <= i < j < |photos| ==> photos[i].order < photos[j].order
  }

  predicate DistinctOrders(photos: seq<Photo>) {
    forall i, j :: 0 <= i < j < |photos| ==> photos[i].order != photos[j].order
  }

  predicate DistinctKeys(photos: seq<Photo>) {
    forall i, j :: 0 <= i < j < |photos| ==> photos[i].key != photos[j].key
  }

  ghost predicate SameMembers(a: seq<Photo>, b: seq<Photo>) {
    forall p :: p in a <==> p in b
  }

  // The orders are 0 to n - 1, each once.
  predicate Ordered(photos: seq<Photo>, maximum: nat) {
    && |photos| <= maximum
    && DistinctOrders(photos)
    && forall i :: 0 <= i < |photos| ==> photos[i].order < |photos|
  }

  // And no key is listed twice.
  predicate Sound(photos: seq<Photo>, maximum: nat) {
    Ordered(photos, maximum) && DistinctKeys(photos)
  }

  lemma AppendAscending(photos: seq<Photo>, p: Photo)
    requires Ascending(photos)
    requires forall q :: q in photos ==> q.order < p.order
    ensures Ascending(photos + [p])
    ensures forall q :: q in photos + [p] <==> q in photos || q == p
  {
    forall i | 0 <= i < |photos| ensures photos[i].order < p.order {
      assert photos[i] in photos;
    }
  }

  lemma LastIsGreatest(photos: seq<Photo>)
    requires Ascending(photos) && photos != []
    ensures
      var m := |photos| - 1;
      forall p :: p in photos[..m] <==> p in photos && p.order < photos[m].order
    ensures forall p :: p in photos ==> p == photos[|photos| - 1] || p.order < photos[|photos| - 1].order
  {
    assert photos == photos[..|photos| - 1] + [photos[|photos| - 1]];
  }

  lemma {:induction false} InsertSorts(photos: seq<Photo>, p: Photo)
    requires Ascending(photos)
    requires forall q :: q in photos ==> q.order != p.order
    ensures Ascending(InsertByOrder(photos, p))
    ensures |InsertByOrder(photos, p)| == |photos| + 1
    ensures forall q :: q in InsertByOrder(photos, p) <==> q in photos || q == p
    decreases |photos|
  {
    if photos == [] {
      AppendAscending(photos, p);
    } else {
      var last := photos[|photos| - 1];
      LastIsGreatest(photos);
      if last.order <= p.order {
        AppendAscending(photos, p);
      } else {
        InsertSorts(photos[..|photos| - 1], p);
        AppendAscending(InsertByOrder(photos[..|photos| - 1], p), last);
      }
    }
  }

  lemma {:induction false} DisplayedSorts(photos: seq<Photo>)
    requires DistinctOrders(photos)
    ensures Ascending(Displayed(photos)) && SameMembers(Displayed(photos), photos) && |Displayed(photos)| == |photos|
    decreases |photos|
  {
    var n := |photos|;
    if n > 0 {
      DisplayedSorts(photos[..n - 1]);
      assert photos == photos[..n - 1] + [photos[n - 1]];
      InsertSorts(Displayed(photos[..n - 1]), photos[n - 1]);
    }
  }

  lemma SameLast(a: seq<Photo>, b: seq<Photo>)
    requires Ascending(a) && Ascending(b) && SameMembers(a, b) && a != []
    ensures b != [] && a[|a| - 1] == b[|b| - 1] && SameMembers(a[..|a| - 1], b[..|b| - 1])
  {
    assert a[|a| - 1] in b && b[|b| - 1] in a;
    LastIsGreatest(a);
    LastIsGreatest(b);
  }

  lemma {:induction false} AscendingIsUnique(a: seq<Photo>, b: seq<Photo>)
    requires Ascending(a) && Ascending(b) && SameMembers(a, b)
    ensures a == b
    decreases |a|
  {
    assert b != [] ==> b[0] in a;
    if a != [] {
      SameLast(a, b);
      AscendingIsUnique(a[..|a| - 1], b[..|b| - 1]);
      assert a == a[..|a| - 1] + [a[|a| - 1]] && b == b[..|b| - 1] + [b[|b| - 1]];
    }
  }

  lemma {:induction false} DisplayedLength(photos: seq<Photo>)
    ensures |Displayed(photos)| == |photos|
    decreases |photos|
  {
    var n := |photos|;
    if n > 0 {
      DisplayedLength(photos[..n - 1]);
      InsertedLength(Displayed(photos[..n - 1]), photos[n - 1]);
    }
  }

  lemma {:induction false} InsertedLength(photos: seq<Photo>, p: Photo)
    ensures |InsertByOrder(photos, p)| == |photos| + 1
    decreases |photos|
  {
    if photos != [] && photos[|photos| - 1].order > p.order {
      InsertedLength(photos[..|photos| - 1], p);
    }
  }

  // An ascending arrangement of the photos is the displayed one.
  lemma DisplayedIs(photos: seq<Photo>, arranged: seq<Photo>)
    requires DistinctOrders(photos) && Ascending(arranged) && SameMembers(arranged, photos)
    ensures Displayed(photos) == arranged
  {
    DisplayedSorts(photos);
    AscendingIsUnique(Displayed(photos), arranged);
  }

  lemma {:induction false} AtLeastIndex(photos: seq<Photo>, i: nat)
    requires Ascending(photos) && i < |photos|
    ensures photos[i].order >= i
  {
    if i > 0 {
      AtLeastIndex(photos, i - 1);
    }
  }

  lemma {:induction false} AtMostIndex(photos: seq<Photo>, i: nat)
    requires Ascending(photos) && i < |photos|
    requires forall j :: 0 <= j < |photos| ==> photos[j].order < |photos|
    ensures photos[i].order <= i
    decreases |photos| - i
  {
    if i < |photos| - 1 {
      AtMostIndex(photos, i + 1);
    }
  }

  // The orders are a permutation of 0 to n - 1: the photo displayed at place i is the one with order i.
  lemma OrderIsPlace(photos: seq<Photo>, maximum: nat)
    requires Ordered(photos, maximum)
    ensures |Displayed(photos)| == |photos| && SameMembers(Displayed(photos), photos)
    ensures forall i :: 0 <= i < |photos| ==> Displayed(photos)[i].order == i
  {
    var shown := Displayed(photos);
    DisplayedSorts(photos);
    forall i | 0 <= i < |photos| ensures shown[i].order == i {
      forall j | 0 <= j < |shown| ensures shown[j].order < |shown| {
        assert shown[j] in photos;
      }
      AtLeastIndex(shown, i);
      AtMostIndex(shown, i);
    }
  }

  /* ----- The operations on the stored list ----- */

  // Photos of the worker's upload, in place behind the ones already there.
  function Placed(images: seq<Photo>, from: nat): seq<Photo> {
    seq(|images|, i requires 0 <= i < |images| => images[i].(order := from + i))
  }

  predicate AcceptsAppend(photos: seq<Photo>, images: seq<Photo>, maximum: nat) {
    && images != []
    && (forall p, q :: p in photos && q in images ==> p.key != q.key)
    && |photos| + |images| <= maximum
  }

  predicate AcceptsOrder(photos: seq<Photo>, keys: seq<string>) {
    && (forall i, j :: 0 <= i < j < |keys| ==> keys[i] != keys[j])
    && |keys| == |photos|
    && forall k :: k in keys ==> k in Keys(photos)
  }

  // The last photo with this key, as the map by key of a reorder keeps it.
  function Find(photos: seq<Photo>, key: string): (p: Photo)
    requires key in Keys(photos)
    ensures p in photos && p.key == key
    decreases |photos|
  {
    var n := |photos|;
    if photos[n - 1].key == key then photos[n - 1]
    else
      assert Keys(photos)[..n - 1] == Keys(photos[..n - 1]);
      assert Keys(photos) == Keys(photos)[..n - 1] + [photos[n - 1].key];
      Find(photos[..n - 1], key)
  }

  // The first photo with this key, the one a delete looks up.
  function First(photos: seq<Photo>, key: string): (p: Photo)
    requires key in Keys(photos)
    ensures p in photos && p.key == key
    decreases |photos|
  {
    if photos[0].key == key then photos[0]
    else
      assert Keys(photos) == [photos[0].key] + Keys(photos[1..]);
      First(photos[1..], key)
  }

  function Reordered(photos: seq<Photo>, keys: seq<string>): seq<Photo>
    requires AcceptsOrder(photos, keys)
  {
    seq(|keys|, i requires 0 <= i < |keys| => AtPosition(Find(photos, keys[i]), i))
  }

  function Without(photos: seq<Photo>, key: string): seq<Photo>
    decreases |photos|
  {
    var n := |photos|;
    if n == 0 then []
    else Without(photos[..n - 1], key) + if photos[n - 1].key == key then [] else [photos[n - 1]]
  }

  function RemoveAt(photos: seq<Photo>, j: nat): (rest: seq<Photo>)
    requires j < |photos|
    ensures |rest| == |photos| - 1
    ensures forall i :: 0 <= i < |rest| ==> rest[i] == photos[if i < j then i else i + 1]
  {
    photos[..j] + photos[j + 1..]
  }

  // The photos that are left are renumbered in the order they are stored in.
  function Renumbered(photos: seq<Photo>): seq<Photo> {
    seq(|photos|, i requires 0 <= i < |photos| => AtPosition(photos[i], i))
  }

  function Deleted(photos: seq<Photo>, key: string): seq<Photo> {
    Renumbered(Without(photos, key))
  }

  // The object could not be removed: the photo is pushed back with the order it had.
  function Restored(photos: seq<Photo>, key: string): seq<Photo>
    requires key in Keys(photos)
  {
    Without(photos, key) + [First(photos, key)]
  }

  // No other photo has the key of the one at place j.
  predicate Once(photos: seq<Photo>, j: nat)
    requires j < |photos|
  {
    forall i :: 0 <= i < |photos| && i != j ==> photos[i].key != photos[j].key
  }

  lemma {:induction false} WithoutIs(photos: seq<Photo>, j: nat)
    requires j < |photos| && Once(photos, j)
    ensures Without(photos, photos[j].key) == RemoveAt(photos, j)
    decreases |photos|
  {
    var n := |photos|;
    var key := photos[j].key;
    if j < n - 1 {
      WithoutIs(photos[..n - 1], j);
      assert RemoveAt(photos[..n - 1], j) + [photos[n - 1]] == RemoveAt(photos, j);
    } else {
      WithoutNothing(photos[..j], key);
      assert photos[j + 1..] == [];
    }
  }

  lemma {:induction false} WithoutNothing(photos: seq<Photo>, key: string)
    requires forall i :: 0 <= i < |photos| ==> photos[i].key != key
    ensures Without(photos, key) == photos
    decreases |photos|
  {
    var n := |photos|;
    if n > 0 {
      WithoutNothing(photos[..n - 1], key);
      assert photos == photos[..n - 1] + [photos[n - 1]];
    }
  }

  // A delete takes every photo with the key and keeps the others as they are stored.
  lemma {:induction false} WithoutMembers(photos: seq<Photo>, key: string)
    ensures forall p :: p in Without(photos, key) <==> p in photos && p.key != key
    ensures |Without(photos, key)| <= |photos|
    decreases |photos|
  {
    var n := |photos|;
    if n > 0 {
      WithoutMembers(photos[..n - 1], key);
      assert photos == photos[..n - 1] + [photos[n - 1]];
    }
  }

  lemma {:induction false} WithoutKeepsOrder(photos: seq<Photo>, key: string)
    requires Ascending(photos)
    ensures Ascending(Without(photos, key))
    decreases |photos|
  {
    var n := |photos|;
    if n > 0 {
      WithoutKeepsOrder(photos[..n - 1], key);
      var rest := Without(photos[..n - 1], key);
      forall i | 0 <= i < |rest| ensures rest[i].order < photos[n - 1].order {
        var m := InFront(photos, key, rest[i]);
      }
    }
  }

  lemma {:induction false} WithoutKeepsKeysDistinct(photos: seq<Photo>, key: string)
    requires DistinctKeys(photos)
    ensures DistinctKeys(Without(photos, key))
    decreases |photos|
  {
    var n := |photos|;
    if n > 0 {
      WithoutKeepsKeysDistinct(photos[..n - 1], key);
      var rest := Without(photos[..n - 1], key);
      forall i | 0 <= i < |rest| ensures rest[i].key != photos[n - 1].key {
        var m := InFront(photos, key, rest[i]);
      }
    }
  }

  // What is kept of the photos in front of the last one is one of them.
  lemma InFront(photos: seq<Photo>, key: string, p: Photo) returns (m: nat)
    requires photos != [] && p in Without(photos[..|photos| - 1], key)
    ensures m < |photos| - 1 && photos[m] == p
  {
    var front := photos[..|photos| - 1];
    WithoutMembers(front, key);
    assert p in front;
    m :| m < |front| && front[m] == p;
  }

  lemma {:induction false} WithoutOne(photos: seq<Photo>, j: nat)
    requires j < |photos|
    ensures |Without(photos, photos[j].key)| < |photos|
    decreases |photos|
  {
    var n := |photos|;
    if j < n - 1 {
      WithoutOne(photos[..n - 1], j);
    } else {
      WithoutMembers(photos[..n - 1], photos[j].key);
    }
  }

  lemma {:induction false} WithoutTwo(photos: seq<Photo>, i: nat, j: nat)
    requires i < j < |photos| && photos[i].key == photos[j].key
    ensures |Without(photos, photos[j].key)| + 1 < |photos|
    decreases |photos|
  {
    var n := |photos|;
    if j < n - 1 {
      WithoutTwo(photos[..n - 1], i, j);
    } else {
      WithoutOne(photos[..n - 1], i);
    }
  }

  lemma KeyListed(photos: seq<Photo>, j: nat)
    requires j < |photos|
    ensures photos[j].key in Keys(photos)
    ensures Once(photos, j) ==> First(photos, photos[j].key) == photos[j]
  {
    assert Keys(photos)[j] == photos[j].key;
  }

  lemma MovedToEnd(photos: seq<Photo>, j: nat, maximum: nat)
    requires Ordered(photos, maximum) && j < |photos|
    ensures Ordered(RemoveAt(photos, j) + [photos[j]], maximum)
    ensures SameMembers(RemoveAt(photos, j) + [photos[j]], photos)
    ensures DistinctKeys(photos) ==> DistinctKeys(RemoveAt(photos, j) + [photos[j]])
  {
    var rest := RemoveAt(photos, j);
    var after := rest + [photos[j]];
    forall i | 0 <= i < |rest|
      ensures after[i] == rest[i] && rest[i].order != photos[j].order && rest[i].order < |photos| {
    }
    forall p | p in photos && p != photos[j] ensures p in rest {
      var i :| 0 <= i < |photos| && photos[i] == p;
      assert rest[if i < j then i else i - 1] == p;
    }
  }

  lemma RenumberedIsOrdered(photos: seq<Photo>, maximum: nat)
    requires |photos| <= maximum
    ensures Ordered(Renumbered(photos), maximum) && Ascending(Renumbered(photos)) &&
      Keys(Renumbered(photos)) == Keys(photos)
    ensures DistinctKeys(photos) ==> DistinctKeys(Renumbered(photos))
  {
  }

  lemma PlacedIsOrdered(photos: seq<Photo>, images: seq<Photo>, maximum: nat)
    requires Ordered(photos, maximum) && AcceptsAppend(photos, images, maximum)
    ensures Ordered(photos + Placed(images, |photos|), maximum)
    ensures Ascending(photos) ==> Ascending(photos + Placed(images, |photos|))
    ensures forall i :: 0 <= i < |Placed(images, |photos|)| ==> Placed(images, |photos|)[i].order == |photos| + i
  {
  }

  lemma PlacedKeysIff(photos: seq<Photo>, images: seq<Photo>, maximum: nat)
    requires DistinctKeys(photos) && AcceptsAppend(photos, images, maximum)
    ensures DistinctKeys(photos + Placed(images, |photos|)) <==> DistinctKeys(images)
  {
    var n, after := |photos|, photos + Placed(images, |photos|);
    forall i, j | 0 <= i < n <= j < |after| ensures after[i].key != after[j].key {
      assert photos[i] in photos && images[j - n] in images;
    }
    if DistinctKeys(after) {
      forall i, j | 0 <= i < j < |images| ensures images[i].key != images[j].key {
        assert after[n + i].key != after[n + j].key;
      }
    }
  }

  /* ----- What each operation keeps and shows ----- */

  // Appended photos are shown behind all others, whatever their keys; no key is listed twice afterwards
  // if and only if the batch itself repeats none.
  lemma AppendShowsAtEnd(photos: seq<Photo>, images: seq<Photo>, maximum: nat)
    requires Ordered(photos, maximum) && AcceptsAppend(photos, images, maximum)
    ensures Displayed(photos + Placed(images, |photos|)) == Displayed(photos) + Placed(images, |photos|)
    ensures Ordered(photos + Placed(images, |photos|), maximum)
    ensures DistinctKeys(photos) ==> (DistinctKeys(photos + Placed(images, |photos|)) <==> DistinctKeys(images))
  {
    hide *;
    PlacedIsOrdered(photos, images, maximum);
    if DistinctKeys(photos) {
      PlacedKeysIff(photos, images, maximum);
    }
    ShownBehind(photos, Placed(images, |photos|), maximum);
  }

  lemma ShownBehind(photos: seq<Photo>, added: seq<Photo>, maximum: nat)
    requires Ordered(photos, maximum) && Ordered(photos + added, maximum)
    requires forall i :: 0 <= i < |added| ==> added[i].order == |photos| + i
    ensures Displayed(photos + added) == Displayed(photos) + added
  {
    var shown := Displayed(photos);
    DisplayedSorts(photos);
    forall p | p in shown ensures p.order < |photos| {
      assert p in photos;
    }
    EndToEnd(photos, shown, added);
    hide Displayed;
    DisplayedIs(photos + added, shown + added);
  }

  lemma EndToEnd(photos: seq<Photo>, shown: seq<Photo>, added: seq<Photo>)
    requires SameMembers(shown, photos) && Ascending(shown) && Ascending(added)
    requires forall p, q :: p in shown && q in added ==> p.order < q.order
    ensures SameMembers(shown + added, photos + added) && Ascending(shown + added)
  {
    var all := shown + added;
    forall i, j | 0 <= i < j < |all| ensures all[i].order < all[j].order {
      if i < |shown| <= j {
        assert all[i] in shown && all[j] in added;
      }
    }
  }

  lemma ReorderShowsKeys(photos: seq<Photo>, keys: seq<string>, maximum: nat)
    requires |photos| <= maximum && AcceptsOrder(photos, keys)
    ensures Sound(Reordered(photos, keys), maximum) && Ascending(Reordered(photos, keys))
    ensures Displayed(Reordered(photos, keys)) == Reordered(photos, keys)
    ensures Keys(Displayed(Reordered(photos, keys))) == keys
  {
    var after := Reordered(photos, keys);
    assert Keys(after) == keys;
    forall i | 0 <= i < |keys| ensures after[i].key == keys[i] && after[i].order == i {
    }
    InOrderIsSound(after, keys, maximum);
    DisplayedIs(after, after);
  }

  lemma InOrderIsSound(photos: seq<Photo>, keys: seq<string>, maximum: nat)
    requires |photos| == |keys| <= maximum
    requires forall i, j :: 0 <= i < j < |keys| ==> keys[i] != keys[j]
    requires forall i :: 0 <= i < |keys| ==> photos[i].key == keys[i] && photos[i].order == i
    ensures Sound(photos, maximum) && Ascending(photos)
  {
  }

  function KeySet(photos: seq<Photo>): set<string> {
    set p | p in photos :: p.key
  }

  lemma KeySetStep(photos: seq<Photo>)
    requires photos != []
    ensures
      var n := |photos| - 1;
      && KeySet(photos) == KeySet(photos[..n]) + {photos[n].key}
      && (DistinctKeys(photos[..n]) && photos[n].key !in KeySet(photos[..n]) ==> DistinctKeys(photos))
  {
    var n := |photos| - 1;
    assert photos == photos[..n] + [photos[n]];
    if DistinctKeys(photos[..n]) && photos[n].key !in KeySet(photos[..n]) {
      forall i | 0 <= i < n ensures photos[i].key != photos[n].key {
        assert photos[i] in photos[..n];
      }
      assert forall i, j :: 0 <= i < j < n ==> photos[..n][i].key != photos[..n][j].key;
    }
  }

  lemma {:induction false} DistinctKeysCounted(photos: seq<Photo>)
    ensures |KeySet(photos)| <= |photos|
    ensures |KeySet(photos)| == |photos| ==> DistinctKeys(photos)
    decreases |photos|
  {
    if photos != [] {
      DistinctKeysCounted(photos[..|photos| - 1]);
      KeySetStep(photos);
      hide KeySet, DistinctKeys;
    }
  }

  lemma {:induction false} DistinctCount(keys: seq<string>, all: set<string>)
    requires forall i, j :: 0 <= i < j < |keys| ==> keys[i] != keys[j]
    requires forall k :: k in keys ==> k in all
    ensures |keys| <= |all|
    decreases |keys|
  {
    if keys != [] {
      var n := |keys| - 1;
      assert forall i :: 0 <= i < n ==> keys[i] != keys[n];
      DistinctCount(keys[..n], all - {keys[n]});
      assert keys[n] in all;
    }
  }

  // A list that has a key twice can never be reordered: no order is complete for it.
  lemma OnlyDistinctReorder(photos: seq<Photo>, keys: seq<string>)
    requires AcceptsOrder(photos, keys)
    ensures DistinctKeys(photos)
  {
    forall k | k in keys ensures k in KeySet(photos) {
      var i :| 0 <= i < |photos| && Keys(photos)[i] == k;
      assert photos[i] in photos;
    }
    DistinctCount(keys, KeySet(photos));
    DistinctKeysCounted(photos);
  }

  // Each photo keeps its link, small copy and text when it moves.
  lemma ReorderKeepsPhotos(photos: seq<Photo>, keys: seq<string>, i: nat)
    requires AcceptsOrder(photos, keys) && i < |keys|
    ensures forall p :: p in photos && p.key == keys[i] ==> Reordered(photos, keys)[i] == AtPosition(p, i)
  {
    var found := Find(photos, keys[i]);
    OnlyDistinctReorder(photos, keys);
    forall p | p in photos && p.key == keys[i] ensures p == found {
    }
  }

  // A delete whose storage call fails changes nothing the dealer can see if and only if no other photo
  // has the key; otherwise the others are gone.
  lemma FailedDeleteShowsTheSame(photos: seq<Photo>, j: nat, maximum: nat)
    requires Ordered(photos, maximum) && j < |photos|
    ensures photos[j].key in Keys(photos)
    ensures Displayed(Restored(photos, photos[j].key)) == Displayed(photos) <==> Once(photos, j)
    ensures Once(photos, j) ==> Ordered(Restored(photos, photos[j].key), maximum)
  {
    var key := photos[j].key;
    KeyListed(photos, j);
    if Once(photos, j) {
      WithoutIs(photos, j);
      MovedToEnd(photos, j, maximum);
      DisplayedSorts(photos);
      DisplayedIs(Restored(photos, key), Displayed(photos));
    } else {
      var i :| 0 <= i < |photos| && i != j && photos[i].key == key;
      WithoutTwo(photos, if i < j then i else j, if i < j then j else i);
      DisplayedLength(photos);
      DisplayedLength(Restored(photos, key));
    }
  }

  // A successful delete shows the remaining photos as they are stored. ...
  lemma DeleteShowsStoredOrder(photos: seq<Photo>, key: string)
    ensures Displayed(Deleted(photos, key)) == Deleted(photos, key)
    ensures Keys(Displayed(Deleted(photos, key))) == Keys(Without(photos, key))
    ensures forall p :: p in Without(photos, key) <==> p in photos && p.key != key
  {
    WithoutMembers(photos, key);
    RenumberedIsOrdered(Without(photos, key), |photos|);
    DisplayedIs(Deleted(photos, key), Deleted(photos, key));
  }

  // ... so it keeps the order they were displayed in if and only if they were stored in that order.
  lemma DeleteKeepsDisplayIff(photos: seq<Photo>, key: string, maximum: nat)
    requires Ordered(photos, maximum) && DistinctKeys(Without(photos, key))
    ensures Keys(Displayed(Deleted(photos, key))) == Keys(Without(Displayed(photos), key)) <==>
      Ascending(Without(photos, key))
  {
    var rest, left := Without(photos, key), Without(Displayed(photos), key);
    DisplayedSorts(photos);
    DeleteShowsStoredOrder(photos, key);
    WithoutMembers(photos, key);
    WithoutMembers(Displayed(photos), key);
    WithoutKeepsOrder(Displayed(photos), key);
    assert SameMembers(rest, left);
    if Ascending(rest) {
      AscendingIsUnique(rest, left);
    }
    if Keys(rest) == Keys(left) {
      SameKeysSameList(rest, rest, left);
    }
  }

  lemma SameKeysSameList(photos: seq<Photo>, a: seq<Photo>, b: seq<Photo>)
    requires DistinctKeys(photos) && Keys(a) == Keys(b)
    requires forall p :: p in a || p in b ==> p in photos
    ensures a == b
  {
    assert |a| == |Keys(a)| == |b|;
    forall i | 0 <= i < |a| ensures a[i] == b[i] {
      assert a[i] in photos && b[i] in photos;
      assert a[i].key == Keys(a)[i] == Keys(b)[i] == b[i].key;
    }
  }

  // It does happen: with a failed delete of the first photo and then a delete of the third, the two
  // photos that are left change places.
  lemma FailedDeleteThenDeleteSwaps(a: Photo, b: Photo, c: Photo)
    requires Sound([a, b, c], 3) && Ascending([a, b, c])
    ensures a.key in Keys([a, b, c])
    ensures Displayed(Restored([a, b, c], a.key)) == [a, b, c] && Restored([a, b, c], a.key) == [b, c, a]
    ensures Keys(Displayed(Deleted([b, c, a], c.key))) == [b.key, a.key]
  {
    ThreePhotos(a, b, c);
    DisplayedIs([a, b, c], [a, b, c]);
    assert Ordered([a, b, c], 3) && [a, b, c][0] == a && [b, c, a][1] == c;
    hide *;
    FailedDeleteShowsTheSame([a, b, c], 0, 3);
    MovedByFailedDelete([a, b, c], 0);
    LeftByDelete([b, c, a], 1);
  }

  lemma ThreePhotos(a: Photo, b: Photo, c: Photo)
    requires DistinctKeys([a, b, c])
    ensures Once([a, b, c], 0) && Once([b, c, a], 1)
    ensures RemoveAt([a, b, c], 0) + [a] == [b, c, a] && Keys(RemoveAt([b, c, a], 1)) == [b.key, a.key]
  {
    var photos := [a, b, c];
    assert photos[0].key != photos[1].key && photos[0].key != photos[2].key && photos[1].key != photos[2].key;
    assert RemoveAt([b, c, a], 1) == [b, a];
  }

  lemma MovedByFailedDelete(photos: seq<Photo>, j: nat)
    requires j < |photos| && Once(photos, j)
    ensures photos[j].key in Keys(photos)
    ensures Restored(photos, photos[j].key) == RemoveAt(photos, j) + [photos[j]]
  {
    KeyListed(photos, j);
    WithoutIs(photos, j);
  }

  lemma LeftByDelete(photos: seq<Photo>, j: nat)
    requires j < |photos| && Once(photos, j)
    ensures Keys(Displayed(Deleted(photos, photos[j].key))) == Keys(RemoveAt(photos, j))
  {
    WithoutIs(photos, j);
    DeleteShowsStoredOrder(photos, photos[j].key);
  }

  /* ----- One operation ----- */

  datatype Operation =
    | Add(photo: Photo)
    | Append(images: seq<Photo>)
    | Reorder(keys: seq<string>)
    | Delete(key: string, objectRemoved: bool)

  // Added keys hold a fresh random part.
  predicate Possible(photos: seq<Photo>, op: Operation) {
    op.Add? ==> op.photo.key !in Keys(photos)
  }

  // The operation does not put a batch in that repeats a key.
  predicate RepeatsNothing(photos: seq<Photo>, op: Operation, maximum: nat) {
    op.Append? && AcceptsAppend(photos, op.images, maximum) ==> DistinctKeys(op.images)
  }

  function Apply(photos: seq<Photo>, op: Operation, maximum: nat): seq<Photo> {
    match op
    case Add(photo) => if |photos| < maximum then photos + [photo.(order := |photos|)] else photos
    case Append(images) => if AcceptsAppend(photos, images, maximum) then photos + Placed(images, |photos|) else photos
    case Reorder(keys) => if AcceptsOrder(photos, keys) then Reordered(photos, keys) else photos
    case Delete(key, objectRemoved) =>
      if key !in Keys(photos) then photos
      else if objectRemoved then Deleted(photos, key)
      else Restored(photos, key)
  }

  predicate Fails(op: Operation) {
    op.Delete? && !op.objectRemoved
  }

  // Only an appended batch that repeats a key leaves a key listed twice, and only a delete whose
  // storage call fails can leave the photos stored in another order than shown.
  lemma StepKeepsSound(photos: seq<Photo>, op: Operation, maximum: nat)
    requires Sound(photos, maximum) && Possible(photos, op)
    ensures Sound(Apply(photos, op, maximum), maximum) <==> RepeatsNothing(photos, op, maximum)
    ensures Ascending(photos) && !Fails(op) ==> Ascending(Apply(photos, op, maximum))
  {
    match op
    case Add(photo) =>
      forall i | 0 <= i < |photos| ensures photos[i].key != photo.key {
        assert Keys(photos)[i] == photos[i].key;
      }
    case Append(images) =>
      if AcceptsAppend(photos, images, maximum) {
        PlacedIsOrdered(photos, images, maximum);
        PlacedKeysIff(photos, images, maximum);
      }
    case Reorder(keys) =>
      if AcceptsOrder(photos, keys) {
        ReorderShowsKeys(photos, keys, maximum);
      }
    case Delete(key, objectRemoved) =>
      if key in Keys(photos) {
        DeleteKeepsSound(photos, key, maximum);
      }
  }

  lemma DeleteKeepsSound(photos: seq<Photo>, key: string, maximum: nat)
    requires Sound(photos, maximum) && key in Keys(photos)
    ensures Sound(Deleted(photos, key), maximum) && Ascending(Deleted(photos, key))
    ensures Sound(Restored(photos, key), maximum) && Displayed(Restored(photos, key)) == Displayed(photos)
  {
    var j: nat :| j < |photos| && Keys(photos)[j] == key;
    assert Once(photos, j);
    WithoutMembers(photos, key);
    WithoutKeepsKeysDistinct(photos, key);
    RenumberedIsOrdered(Without(photos, key), maximum);
    FailedDeleteShowsTheSame(photos, j, maximum);
    KeyListed(photos, j);
    WithoutIs(photos, j);
    MovedToEnd(photos, j, maximum);
  }

  // Whatever the keys, the orders stay 0 to n - 1 unless a failed delete loses other photos of its key.
  lemma StepKeepsOrdered(photos: seq<Photo>, op: Operation, maximum: nat)
    requires Ordered(photos, maximum)
    ensures !Fails(op) || DistinctKeys(photos) ==> Ordered(Apply(photos, op, maximum), maximum)
  {
    match op
    case Add(photo) =>
    case Append(images) =>
      if AcceptsAppend(photos, images, maximum) {
        PlacedIsOrdered(photos, images, maximum);
      }
    case Reorder(keys) =>
      if AcceptsOrder(photos, keys) {
        ReorderShowsKeys(photos, keys, maximum);
      }
    case Delete(key, objectRemoved) =>
      WithoutMembers(photos, key);
      RenumberedIsOrdered(Without(photos, key), maximum);
      if key in Keys(photos) && DistinctKeys(photos) {
        DeleteKeepsSound(photos, key, maximum);
      }
  }

  /* ----- The stored listing ----- */

  datatype Outcome = Done | NotFound | Refused | StorageFailed

  class Album {
    const maximum: nat
    var photos: seq<Photo>

    constructor (maximum: nat)
      ensures photos == [] && this.maximum == maximum && Sound(photos, maximum)
    {
      this.maximum := maximum;
      photos := [];
    }

    // The key holds a fresh random UUID.
    method AddImage(key: string, url: string, thumbUrl: string, alt: Option<string>) returns (r: Outcome)
      requires key !in Keys(photos)
      modifies this
      ensures r == if |old(photos)| < maximum then Done else Refused
      ensures photos == Apply(old(photos), Add(Photo(key, url, Some(thumbUrl), Kept(alt), 0)), maximum)
      ensures Sound(old(photos), maximum) ==> Sound(photos, maximum)
    {
      if Sound(photos, maximum) { StepKeepsSound(photos, Add(Photo(key, url, Some(thumbUrl), Kept(alt), 0)), maximum); }
      if |photos| >= maximum { return Refused; }
      photos := photos + [Photo(key, url, Some(thumbUrl), Kept(alt), |photos|)];
      r := Done;
    }

    // The worker's append: all of the images or none.
    method AppendImages(images: seq<Photo>) returns (appended: bool)
      modifies this
      ensures appended <==> AcceptsAppend(old(photos), images, maximum)
      ensures photos == Apply(old(photos), Append(images), maximum)
      ensures Ordered(old(photos), maximum) ==> Ordered(photos, maximum)
      ensures Sound(old(photos), maximum) ==> (Sound(photos, maximum) <==> !appended || DistinctKeys(images))
    {
      if Ordered(photos, maximum) { StepKeepsOrdered(photos, Append(images), maximum); }
      if Sound(photos, maximum) { StepKeepsSound(photos, Append(images), maximum); }
      appended := AcceptsAppend(photos, images, maximum);
      if appended {
        photos := photos + Placed(images, |photos|);
      }
    }

    method ReorderImages(keys: seq<string>) returns (r: Outcome)
      modifies this
      ensures r == if AcceptsOrder(old(photos), keys) then Done else Refused
      ensures photos == Apply(old(photos), Reorder(keys), maximum)
      ensures r.Done? ==> Keys(Displayed(photos)) == keys && Sound(photos, |old(photos)|)
    {
      if !AcceptsOrder(photos, keys) { return Refused; }
      ReorderShowsKeys(photos, keys, |photos|);
      photos := Reordered(photos, keys);
      r := Done;
    }

    // Takes the photos with this key off the listing, then the object out of storage, which may fail.
    method DeleteImage(key: string, objectRemoved: bool) returns (r: Outcome)
      modifies this
      ensures r == if key !in Keys(old(photos)) then NotFound else if objectRemoved then Done else StorageFailed
      ensures photos == Apply(old(photos), Delete(key, objectRemoved), maximum)
      ensures Sound(old(photos), maximum) ==>
        Sound(photos, maximum) && (!r.Done? ==> Displayed(photos) == Displayed(old(photos)))
    {
      if key !in Keys(photos) { return NotFound; }
      if Sound(photos, maximum) { DeleteKeepsSound(photos, key, maximum); }
      var photo := First(photos, key);
      photos := Without(photos, key);
      if !objectRemoved {
        photos := photos + [photo];
        return StorageFailed;
      }
      photos := Renumbered(photos);
      r := Done;
    }
  }

  /* ----- Every history of one listing ----- */

  function History(ops: seq<Operation>, maximum: nat): seq<Photo>
    decreases |ops|
  {
    if ops == [] then [] else Apply(History(ops[..|ops| - 1], maximum), ops[|ops| - 1], maximum)
  }

  predicate Legal(ops: seq<Operation>, maximum: nat) {
    forall n :: 0 <= n < |ops| ==> Possible(History(ops[..n], maximum), ops[n])
  }

  ghost predicate NothingRepeated(ops: seq<Operation>, maximum: nat, n: nat)
    requires n <= |ops|
  {
    forall m :: 0 <= m < n ==> RepeatsNothing(History(ops[..m], maximum), ops[m], maximum)
  }

  lemma HistoryStep(ops: seq<Operation>, maximum: nat, n: nat)
    requires n < |ops|
    ensures History(ops[..n + 1], maximum) == Apply(History(ops[..n], maximum), ops[n], maximum)
  {
    assert ops[..n + 1][..n] == ops[..n];
  }

  lemma {:induction false} SoundSoFar(ops: seq<Operation>, maximum: nat, n: nat)
    requires Legal(ops, maximum) && n <= |ops| && NothingRepeated(ops, maximum, n)
    ensures Sound(History(ops[..n], maximum), maximum)
    ensures (forall op :: op in ops ==> !Fails(op)) ==> Ascending(History(ops[..n], maximum))
  {
    if n > 0 {
      SoundSoFar(ops, maximum, n - 1);
      HistoryStep(ops, maximum, n - 1);
      assert ops[n - 1] in ops;
      StepKeepsSound(History(ops[..n - 1], maximum), ops[n - 1], maximum);
    }
  }

  // A listing keeps its orders a permutation, its keys distinct and its limit through the whole history
  // if and only if no batch that was appended repeats a key. As long as no storage call has failed
  // either, the photos are stored as they are displayed, so every delete keeps their order.
  lemma HistoryIsSound(ops: seq<Operation>, maximum: nat)
    requires Legal(ops, maximum)
    ensures (forall n :: 0 <= n <= |ops| ==> Sound(History(ops[..n], maximum), maximum)) <==>
      NothingRepeated(ops, maximum, |ops|)
    ensures NothingRepeated(ops, maximum, |ops|) && (forall op :: op in ops ==> !Fails(op)) ==>
      Ascending(History(ops, maximum))
  {
    if NothingRepeated(ops, maximum, |ops|) {
      forall n | 0 <= n <= |ops| ensures Sound(History(ops[..n], maximum), maximum) {
        SoundSoFar(ops, maximum, n);
      }
      SoundSoFar(ops, maximum, |ops|);
      assert ops[..|ops|] == ops;
    }
    if forall n :: 0 <= n <= |ops| ==> Sound(History(ops[..n], maximum), maximum) {
      forall m | 0 <= m < |ops| ensures RepeatsNothing(History(ops[..m], maximum), ops[m], maximum) {
        HistoryStep(ops, maximum, m);
        StepKeepsSound(History(ops[..m], maximum), ops[m], maximum);
      }
    }
  }
}
