/** Several attempts at one folder of a zip at once, with each object put, each append and each removal of
    an object as a step of its own, and the dealer adding and deleting photos of the listing in between. */
module FolderRace {
  import opened ZipPhotos

  // Where an attempt stands: putting objects of the photos it chose, or removing them after its append was
  // refused. read: the listing as it read it. put: the objects it has put.
  datatype Phase = Putting(read: Album, put: set<ObjectKey>) | Removing(read: Album)

  // objects: those that are there. deleting: keys the dealer has taken out of the listing and whose objects
  // are going to be removed.
  datatype World = World(album: Album, objects: set<ObjectKey>, attempts: map<nat, Phase>, deleting: set<Key>)

  // Leaves: the attempt is through with the folder, or has died.
  datatype Step =
    | Reads(o: nat)
    | Puts(o: nat, landed: set<ObjectKey>)
    | Appends(o: nat)
    | Removes(o: nat, gone: set<ObjectKey>)
    | Leaves(o: nat)
    | DealerAdds(photo: Photo)
    | DealerArranges(photos: seq<Photo>)
    | DealerDrops(key: Key)
    | DealerRemoves(key: Key)

  // The zip's settings and the folder's entries.
  datatype Work = Work(config: Config, entries: seq<Entry>)

  function Chosen(z: Work, p: Phase): seq<Entry> {
    ToAttach(z.config, p.read, z.entries)
  }

  function ChosenKeys(z: Work, p: Phase): set<Key> {
    EntryKeys(z.config, p.read, Chosen(z, p))
  }

  function Images(z: Work, p: Phase): seq<Photo> {
    Placed(z.config, p.read, Chosen(z, p))
  }

  function ToPut(z: Work, p: Phase): set<ObjectKey> {
    PutKeys(z.config, p.read, Chosen(z, p))
  }

  function Without(photos: seq<Photo>, key: Key): seq<Photo>
    decreases |photos|
  {
    if photos == [] then []
    else
      var last := photos[|photos| - 1];
      Without(photos[..|photos| - 1], key) + if last.key == key then [] else [last]
  }

  predicate IsPutting(w: World, o: nat) {
    o in w.attempts && w.attempts[o].Putting?
  }

  predicate Possible(z: Work, w: World, x: Step) {
    match x
    case Reads(o) => o !in w.attempts && ToAttach(z.config, w.album, z.entries) != []
    case Puts(o, landed) => IsPutting(w, o) && landed <= ToPut(z, w.attempts[o])
    case Appends(o) => IsPutting(w, o) && ToPut(z, w.attempts[o]) <= w.attempts[o].put
    case Removes(o, gone) =>
      o in w.attempts && w.attempts[o].Removing? &&
        gone <= Cleanup(z.config, w.attempts[o].read, Chosen(z, w.attempts[o]))
    case Leaves(o) => o in w.attempts
    case DealerAdds(photo) =>
      photo.key.Other? && photo.key !in Keys(w.album.photos) + w.deleting && |w.album.photos| < z.config.maximum
    case DealerArranges(photos) => Keys(photos) == Keys(w.album.photos) && |photos| == |w.album.photos|
    case DealerDrops(key) => key in Keys(w.album.photos)
    case DealerRemoves(key) => key in w.deleting
  }

  function Appended(z: Work, w: World, o: nat): World
    requires IsPutting(w, o)
  {
    var images := Images(z, w.attempts[o]);
    if AppendMatches(z.config, w.album, images) then
      w.(album := w.album.(photos := w.album.photos + images), attempts := w.attempts - {o})
    else w.(attempts := w.attempts[o := Removing(w.attempts[o].read)])
  }

  // A step that is not possible changes nothing.
  function After(z: Work, w: World, x: Step): World {
    if !Possible(z, w, x) then w
    else
      match x
      case Reads(o) => w.(attempts := w.attempts[o := Putting(w.album, {})])
      case Puts(o, landed) =>
        w.(objects := w.objects + landed,
          attempts := w.attempts[o := w.attempts[o].(put := w.attempts[o].put + landed)])
      case Appends(o) => Appended(z, w, o)
      case Removes(_, gone) => w.(objects := w.objects - gone)
      case Leaves(o) => w.(attempts := w.attempts - {o})
      case DealerAdds(photo) =>
        w.(album := w.album.(photos := w.album.photos + [photo]),
          objects := w.objects + {Full(photo.key), Small(photo.key)})
      case DealerArranges(photos) => w.(album := w.album.(photos := photos))
      case DealerDrops(key) =>
        w.(album := w.album.(photos := Without(w.album.photos, key)), deleting := w.deleting + {key})
      case DealerRemoves(key) => w.(objects := w.objects - {Full(key), Small(key)}, deleting := w.deleting - {key})
  }

  function Play(z: Work, w: World, steps: seq<Step>): World
    decreases |steps|
  {
    if steps == [] then w else After(z, Play(z, w, steps[..|steps| - 1]), steps[|steps| - 1])
  }

  predicate Listed(w: World, key: Key) {
    key in Keys(w.album.photos)
  }

  // A listed photo is without its object.
  predicate Dangling(w: World, key: Key) {
    Listed(w, key) && Full(key) !in w.objects
  }

  predicate Chose(z: Work, w: World, o: nat, key: Key) {
    o in w.attempts && key in ChosenKeys(z, w.attempts[o])
  }

  /* ----- Keys and objects ----- */

  lemma {:induction false} WithoutKeys(photos: seq<Photo>, key: Key)
    ensures Keys(Without(photos, key)) == Keys(photos) - {key}
    decreases |photos|
  {
    if photos != [] {
      var n := |photos| - 1;
      WithoutKeys(photos[..n], key);
      assert photos == photos[..n] + [photos[n]];
      KeysAppend(photos[..n], [photos[n]]);
      KeysAppend(Without(photos[..n], key), if photos[n].key == key then [] else [photos[n]]);
    }
  }

  lemma KeysAppend(a: seq<Photo>, b: seq<Photo>)
    ensures Keys(a + b) == Keys(a) + Keys(b)
  {
  }

  // What a choice means for keys: the photos have them, the objects are those of the keys.
  lemma ChoiceKeys(z: Work, p: Phase, key: Key)
    ensures key in ChosenKeys(z, p) <==> key in Keys(Images(z, p))
    ensures key in ChosenKeys(z, p) <==> Full(key) in ToPut(z, p)
    ensures key in ChosenKeys(z, p) <==> Full(key) in Cleanup(z.config, p.read, Chosen(z, p))
    ensures key in Keys(p.read.photos) ==> key !in ChosenKeys(z, p)
  {
    var c, a, chosen := z.config, p.read, Chosen(z, p);
    PlacedKeys(c, a, chosen);
    FreshMembers(c, a, Keys(a.photos), z.entries);
  }

  /* ----- Losing an object ----- */

  // The photo is listed, has its object, and nobody is going to touch it.
  ghost predicate Safe(z: Work, w: World, key: Key) {
    Listed(w, key) && Full(key) in w.objects && key !in w.deleting && forall o :: !Chose(z, w, o, key)
  }

  // Only reading makes an attempt choose.
  lemma ChoicesStay(z: Work, w: World, x: Step, o: nat, key: Key)
    requires Chose(z, After(z, w, x), o, key)
    ensures Chose(z, w, o, key) || (x == Reads(o) && !Listed(w, key))
  {
    if x == Reads(o) {
      ChoiceKeys(z, Putting(w.album, {}), key);
    }
    hide ToAttach, Placed, Cleanup, AppendMatches;
  }

  lemma SafeStep(z: Work, w: World, x: Step, key: Key)
    requires Safe(z, w, key) && x != DealerDrops(key)
    ensures Safe(z, After(z, w, x), key)
  {
    forall o ensures !Chose(z, After(z, w, x), o, key) {
      if Chose(z, After(z, w, x), o, key) { ChoicesStay(z, w, x, o, key); }
    }
    hide ChosenKeys, Images, ToPut, Chosen, Cleanup, AppendMatches, Keys;
    if Possible(z, w, x) {
      match x
      case Appends(o) => KeysAppend(w.album.photos, Images(z, w.attempts[o]));
      case Removes(o, gone) =>
        assert !Chose(z, w, o, key);
        ChoiceKeys(z, w.attempts[o], key);
      case DealerAdds(photo) => KeysAppend(w.album.photos, [photo]);
      case DealerDrops(k) => WithoutKeys(w.album.photos, k);
      case _ =>
    }
  }

  lemma {:induction false} SafeStays(z: Work, w: World, steps: seq<Step>, key: Key)
    requires Safe(z, w, key) && DealerDrops(key) !in steps
    ensures Safe(z, Play(z, w, steps), key)
    decreases |steps|
  {
    if steps != [] {
      SafeStays(z, w, steps[..|steps| - 1], key);
      hide Safe, After;
      SafeStep(z, Play(z, w, steps[..|steps| - 1]), steps[|steps| - 1], key);
    }
  }

  lemma PlayThree(z: Work, w: World, steps: seq<Step>)
    requires |steps| == 3
    ensures Play(z, w, steps) == After(z, After(z, After(z, w, steps[0]), steps[1]), steps[2])
  {
    hide After;
    assert steps[..2][..1] == steps[..1] && steps[..1][..0] == [];
    assert Play(z, w, steps[..1]) == After(z, w, steps[0]);
  }

  // An attempt that chose a listed key gets its append refused and then removes the key's object.
  lemma StaleRemoves(z: Work, w: World, o: nat, key: Key)
    requires Listed(w, key) && Chose(z, w, o, key)
    ensures
      var steps := [Puts(o, ToPut(z, w.attempts[o])), Appends(o), Removes(o, {Full(key)})];
      Dangling(Play(z, w, if w.attempts[o].Putting? then steps else steps[2..]), key)
  {
    var p := w.attempts[o];
    ChoiceKeys(z, p, key);
    var steps := [Puts(o, ToPut(z, p)), Appends(o), Removes(o, {Full(key)})];
    if p.Putting? {
      PlayThree(z, w, steps);
      var put := After(z, w, steps[0]);
      assert put.attempts[o].read == p.read && ToPut(z, p) <= put.attempts[o].put;
      assert key in Keys(put.album.photos) * Keys(Images(z, p));
      hide ToAttach, Placed, Cleanup, PutKeys;
    } else {
      assert steps[2..] == [steps[2]] && [steps[2]][..0] == [];
      hide ToAttach, Placed, Cleanup, PutKeys;
    }
  }

  lemma SafeIsNotDangling(z: Work, w: World, key: Key)
    requires Safe(z, w, key)
    ensures !Dangling(w, key)
  {
  }

  // A listed photo can lose its object without being deleted if and only if an attempt at the folder has
  // read the listing before the photo was in it, or a deletion of an earlier photo with its key is not
  // over: whatever other attempts read, put, append or remove, and whatever the dealer does besides.
  lemma LosesObjectIff(z: Work, w: World, key: Key)
    requires Listed(w, key) && Full(key) in w.objects
    ensures
      (exists steps :: DealerDrops(key) !in steps && Dangling(Play(z, w, steps), key)) <==>
      (exists o :: Chose(z, w, o, key)) || key in w.deleting
  {
    if key in w.deleting {
      var steps := [DealerRemoves(key)];
      assert steps[..0] == [];
      assert DealerDrops(key) !in steps && Dangling(Play(z, w, steps), key);
    } else if o :| Chose(z, w, o, key) {
      StaleRemoves(z, w, o, key);
    } else {
      assert Safe(z, w, key);
      hide Safe, Play;
      forall steps | DealerDrops(key) !in steps ensures !Dangling(Play(z, w, steps), key) {
        SafeStays(z, w, steps, key);
        SafeIsNotDangling(z, Play(z, w, steps), key);
      }
    }
  }

  /* ----- Attempts that do not overlap ----- */

  // No attempt starts at the folder while another is at it or a deletion is not over.
  predicate StartsAlone(w: World, x: Step) {
    x.Reads? ==> w.attempts == map[] && w.deleting == {}
  }

  // At most one attempt is at the folder, what it put is there, what it chose is not listed, and neither is
  // what is being deleted.
  ghost predicate Alone(z: Work, w: World) {
    && (forall a, b :: a in w.attempts && b in w.attempts ==> a == b)
    && (forall key :: Listed(w, key) ==> Full(key) in w.objects && key !in w.deleting)
    && forall o :: o in w.attempts ==>
      && ChosenKeys(z, w.attempts[o]) !! Keys(w.album.photos) + w.deleting
      && (w.attempts[o].Putting? ==> w.attempts[o].put <= w.objects * ToPut(z, w.attempts[o]))
  }

  // Keys of the archive's photos are none of the dealer's.
  lemma ChosenAreFromZip(z: Work, p: Phase, key: Key)
    ensures key in ChosenKeys(z, p) ==> key.FromZip?
  {
  }

  lemma AloneStep(z: Work, w: World, x: Step)
    requires Alone(z, w) && StartsAlone(w, x)
    ensures Alone(z, After(z, w, x))
  {
    if Possible(z, w, x) {
      match x
      case Reads(o) =>
        forall key ensures key in Keys(w.album.photos) ==> key !in ChosenKeys(z, Putting(w.album, {})) {
          ChoiceKeys(z, Putting(w.album, {}), key);
        }
        hide ChosenKeys, ToPut, Keys;
      case Puts(o, landed) => hide ToAttach, PutKeys, EntryKeys, Keys;
      case Appends(o) => AloneAppends(z, w, o);
      case Removes(o, gone) => AloneRemoves(z, w, o, gone);
      case Leaves(o) => hide ChosenKeys, ToPut, Keys;
      case DealerAdds(photo) => AloneAdds(z, w, photo);
      case DealerArranges(photos) => hide ChosenKeys, ToPut, Keys;
      case DealerDrops(key) =>
        WithoutKeys(w.album.photos, key);
        hide ChosenKeys, ToPut, Keys;
      case DealerRemoves(key) => AloneDeletes(z, w, key);
    }
  }

  lemma AloneAppends(z: Work, w: World, o: nat)
    requires Alone(z, w) && Possible(z, w, Appends(o))
    ensures Alone(z, Appended(z, w, o))
  {
    var p := w.attempts[o];
    KeysAppend(w.album.photos, Images(z, p));
    forall key ensures key in ChosenKeys(z, p) ==> Full(key) in w.objects && key in ChosenKeys(z, Removing(p.read))
      ensures key in Keys(Images(z, p)) ==> key in ChosenKeys(z, p)
      ensures key in ChosenKeys(z, Removing(p.read)) ==> key in ChosenKeys(z, p) {
      ChoiceKeys(z, p, key);
    }
    hide ChosenKeys, ToPut, Keys, Images, AppendMatches;
  }

  lemma AloneRemoves(z: Work, w: World, o: nat, gone: set<ObjectKey>)
    requires Alone(z, w) && Possible(z, w, Removes(o, gone))
    ensures Alone(z, w.(objects := w.objects - gone))
  {
    forall key | Listed(w, key) ensures Full(key) !in gone {
      ChoiceKeys(z, w.attempts[o], key);
    }
    hide ChosenKeys, ToPut, Keys, Cleanup;
  }

  lemma AloneAdds(z: Work, w: World, photo: Photo)
    requires Alone(z, w) && Possible(z, w, DealerAdds(photo))
    ensures Alone(z, After(z, w, DealerAdds(photo)))
  {
    KeysAppend(w.album.photos, [photo]);
    assert Keys([photo]) == {photo.key} by { assert photo in [photo]; }
    forall o | o in w.attempts ensures photo.key !in ChosenKeys(z, w.attempts[o]) {
      ChosenAreFromZip(z, w.attempts[o], photo.key);
    }
    hide ChosenKeys, ToPut, Keys;
  }

  lemma AloneDeletes(z: Work, w: World, key: Key)
    requires Alone(z, w) && key in w.deleting
    ensures Alone(z, After(z, w, DealerRemoves(key)))
  {
    forall o | o in w.attempts ensures Full(key) !in ToPut(z, w.attempts[o]) && Small(key) !in ToPut(z, w.attempts[o]) {
      ChoiceKeys(z, w.attempts[o], key);
      assert key !in ChosenKeys(z, w.attempts[o]);
    }
    hide ChosenKeys, ToPut, Keys;
  }

  // As long as attempts do not overlap, no photo of the listing is ever without its object, wherever
  // attempts die and whatever the dealer adds, deletes and arranges meanwhile.
  lemma {:induction false} AloneNeverDangles(z: Work, w: World, steps: seq<Step>)
    requires w.attempts == map[] && w.deleting == {} && forall key :: !Dangling(w, key)
    requires forall n :: 0 <= n < |steps| ==> StartsAlone(Play(z, w, steps[..n]), steps[n])
    ensures Alone(z, Play(z, w, steps)) && forall key :: !Dangling(Play(z, w, steps), key)
    decreases |steps|
  {
    if steps == [] {
      forall key | Listed(w, key) ensures Full(key) in w.objects {
        assert !Dangling(w, key);
      }
    } else {
      var n := |steps| - 1;
      forall k | 0 <= k < n ensures StartsAlone(Play(z, w, steps[..n][..k]), steps[..n][k]) {
        assert steps[..n][..k] == steps[..k];
      }
      AloneNeverDangles(z, w, steps[..n]);
      assert StartsAlone(Play(z, w, steps[..n]), steps[n]);
      AloneStep(z, Play(z, w, steps[..n]), steps[n]);
      hide After, StartsAlone, Possible;
    }
  }

  /* ----- Attempts that have read the listing already ----- */

  // Steps of the attempts at the folder; nobody reads again and the dealer does nothing.
  predicate Own(x: Step) {
    x.Puts? || x.Appends? || x.Removes? || x.Leaves?
  }

  predicate OwnSteps(steps: seq<Step>) {
    forall k :: 0 <= k < |steps| ==> Own(steps[k])
  }

  // Its append would go through as the listing is, with a photo under this key.
  predicate CanAppend(z: Work, w: World, o: nat, key: Key) {
    IsPutting(w, o) && Chose(z, w, o, key) && AppendMatches(z.config, w.album, Images(z, w.attempts[o]))
  }

  // The attempt's object is gone again, or another attempt has chosen the photo too.
  ghost predicate Undercut(z: Work, w: World, o: nat, key: Key)
    requires IsPutting(w, o)
  {
    || (Full(key) in w.attempts[o].put && Full(key) !in w.objects)
    || exists other :: other != o && Chose(z, w, other, key)
  }

  ghost predicate AtRisk(z: Work, w: World, key: Key) {
    if Listed(w, key) then exists o :: Chose(z, w, o, key)
    else exists o :: CanAppend(z, w, o, key) && Undercut(z, w, o, key)
  }

  // An attempt whose append goes through lists what it chose, and makes no other append possible.
  lemma AppendedKeys(z: Work, w: World, o: nat, key: Key)
    requires Possible(z, w, Appends(o))
    ensures forall p :: AppendMatches(z.config, Appended(z, w, o).album, Images(z, p)) ==>
      AppendMatches(z.config, w.album, Images(z, p))
    ensures Listed(Appended(z, w, o), key) && !Listed(w, key) ==>
      CanAppend(z, w, o, key) && Full(key) in w.attempts[o].put && !Chose(z, Appended(z, w, o), o, key)
  {
    ChoiceKeys(z, w.attempts[o], key);
    KeysAppend(w.album.photos, Images(z, w.attempts[o]));
    hide ChosenKeys, Images, ToPut, Keys;
  }

  lemma RiskStep(z: Work, w: World, x: Step, key: Key)
    requires !Dangling(w, key) && !AtRisk(z, w, key) && Own(x)
    ensures !Dangling(After(z, w, x), key) && !AtRisk(z, After(z, w, x), key)
  {
    if Possible(z, w, x) {
      if Listed(w, key) {
        ListedStep(z, w, x, key);
      } else {
        UnlistedStep(z, w, x, key);
      }
    }
  }

  lemma ListedStep(z: Work, w: World, x: Step, key: Key)
    requires Listed(w, key) && !Dangling(w, key) && !AtRisk(z, w, key) && Own(x)
    ensures Listed(After(z, w, x), key) && !Dangling(After(z, w, x), key) && !AtRisk(z, After(z, w, x), key)
  {
    var calm := w.(deleting := {});
    assert forall o :: Chose(z, calm, o, key) <==> Chose(z, w, o, key);
    SafeStep(z, calm, x, key);
    SameCalm(z, w, x);
    hide After, ChosenKeys, Keys;
    forall o ensures !Chose(z, After(z, w, x), o, key) {
      assert !Chose(z, After(z, calm, x), o, key);
    }
  }

  lemma SameCalm(z: Work, w: World, x: Step)
    requires Own(x)
    ensures After(z, w.(deleting := {}), x) == After(z, w, x).(deleting := {})
  {
  }

  lemma UnlistedStep(z: Work, w: World, x: Step, key: Key)
    requires !Listed(w, key) && !AtRisk(z, w, key) && Own(x) && Possible(z, w, x)
    ensures !Dangling(After(z, w, x), key) && !AtRisk(z, After(z, w, x), key)
  {
    var after := After(z, w, x);
    forall o | Chose(z, after, o, key) ensures Chose(z, w, o, key) {
      ChoicesStay(z, w, x, o, key);
    }
    if x.Appends? {
      UnlistedAppends(z, w, x.o, key);
    } else {
      assert after.album == w.album;
      forall o | CanAppend(z, after, o, key) ensures !Undercut(z, after, o, key) {
        StillNotUndercut(z, w, x, o, key);
      }
    }
  }

  lemma UnlistedAppends(z: Work, w: World, o: nat, key: Key)
    requires !Listed(w, key) && !AtRisk(z, w, key) && Possible(z, w, Appends(o))
    ensures !Dangling(Appended(z, w, o), key) && !AtRisk(z, Appended(z, w, o), key)
  {
    var after := Appended(z, w, o);
    AppendedKeys(z, w, o, key);
    forall other | Chose(z, after, other, key) ensures Chose(z, w, other, key) {
      ChoicesStay(z, w, Appends(o), other, key);
    }
    if Listed(after, key) {
      assert !Undercut(z, w, o, key);
    } else {
      forall other | CanAppend(z, after, other, key) ensures !Undercut(z, after, other, key) {
        assert CanAppend(z, w, other, key) && !Undercut(z, w, other, key);
      }
    }
  }

  lemma StillNotUndercut(z: Work, w: World, x: Step, o: nat, key: Key)
    requires !Listed(w, key) && !AtRisk(z, w, key) && Own(x) && !x.Appends? && Possible(z, w, x)
    requires CanAppend(z, After(z, w, x), o, key)
    requires forall other :: Chose(z, After(z, w, x), other, key) ==> Chose(z, w, other, key)
    ensures !Undercut(z, After(z, w, x), o, key)
  {
    assert CanAppend(z, w, o, key) && !Undercut(z, w, o, key);
    if x.Removes? {
      ChoiceKeys(z, w.attempts[x.o], key);
      assert !Chose(z, w, x.o, key);
    }
    hide ChosenKeys, Images, ToPut, Cleanup, AppendMatches;
  }

  lemma {:induction false} RiskStays(z: Work, w: World, steps: seq<Step>, key: Key)
    requires !Dangling(w, key) && !AtRisk(z, w, key) && OwnSteps(steps)
    ensures !Dangling(Play(z, w, steps), key) && !AtRisk(z, Play(z, w, steps), key)
    decreases |steps|
  {
    hide After, Dangling, AtRisk;
    if steps != [] {
      RiskStays(z, w, steps[..|steps| - 1], key);
      RiskStep(z, Play(z, w, steps[..|steps| - 1]), steps[|steps| - 1], key);
    }
  }

  lemma {:induction false} PlayConcat(z: Work, w: World, first: seq<Step>, second: seq<Step>)
    ensures Play(z, w, first + second) == Play(z, Play(z, w, first), second)
    decreases |second|
  {
    hide After;
    if second == [] {
      assert first + second == first;
    } else {
      var n := |second| - 1;
      assert (first + second)[..|first| + n] == first + second[..n];
      PlayConcat(z, w, first, second[..n]);
    }
  }

  // It puts what is left, without one key's object, and appends.
  lemma PutsAndAppends(z: Work, w: World, o: nat, key: Key, puts: set<ObjectKey>)
    requires CanAppend(z, w, o, key) && puts <= ToPut(z, w.attempts[o]) <= w.attempts[o].put + puts
    ensures
      var after := Play(z, w, [Puts(o, puts), Appends(o)]);
      && Listed(after, key) && after.objects == w.objects + puts
      && forall other :: other != o && Chose(z, w, other, key) ==> Chose(z, after, other, key)
  {
    var steps := [Puts(o, puts), Appends(o)];
    var p := w.attempts[o];
    assert steps[..1][..0] == [];
    assert Play(z, w, steps[..1]) == After(z, w, Puts(o, puts));
    ChoiceKeys(z, p, key);
    KeysAppend(w.album.photos, Images(z, p));
    var put := After(z, w, Puts(o, puts));
    assert ToPut(z, put.attempts[o]) == ToPut(z, p) && Images(z, put.attempts[o]) == Images(z, p);
    hide ChosenKeys, ToPut, Images, Keys, AppendMatches;
  }

  lemma Refusal(z: Work, w: World, o: nat, key: Key) returns (steps: seq<Step>)
    requires Listed(w, key) && Chose(z, w, o, key)
    ensures OwnSteps(steps) && Dangling(Play(z, w, steps), key)
  {
    StaleRemoves(z, w, o, key);
    steps := [Puts(o, ToPut(z, w.attempts[o])), Appends(o), Removes(o, {Full(key)})];
    if w.attempts[o].Removing? { steps := steps[2..]; }
  }

  lemma Schedule(z: Work, w: World, key: Key) returns (steps: seq<Step>)
    requires !Dangling(w, key) && AtRisk(z, w, key)
    ensures OwnSteps(steps) && Dangling(Play(z, w, steps), key)
  {
    hide Play, ChosenKeys, Images, AppendMatches, ToAttach, PutKeys;
    if Listed(w, key) {
      var o :| Chose(z, w, o, key);
      steps := Refusal(z, w, o, key);
    } else {
      var o :| CanAppend(z, w, o, key) && Undercut(z, w, o, key);
      var p := w.attempts[o];
      if Full(key) in p.put && Full(key) !in w.objects {
        PutsAndAppends(z, w, o, key, ToPut(z, p) - {Full(key)});
        steps := [Puts(o, ToPut(z, p) - {Full(key)}), Appends(o)];
      } else {
        var other :| other != o && Chose(z, w, other, key);
        PutsAndAppends(z, w, o, key, ToPut(z, p));
        var first := [Puts(o, ToPut(z, p)), Appends(o)];
        var second := Refusal(z, Play(z, w, first), other, key);
        PlayConcat(z, w, first, second);
        steps := first + second;
      }
    }
  }

  // A photo that is not without its object can come to be so, by the steps of attempts that have read the
  // listing already, if and only if it is listed and one of them chose it, or one of them can still list it
  // and another chose it too or has taken its object away. So a single attempt never does that, and two
  // that chose the same photo always may.
  lemma CanDangleIff(z: Work, w: World, key: Key)
    requires !Dangling(w, key)
    ensures (exists steps :: OwnSteps(steps) && Dangling(Play(z, w, steps), key)) <==> AtRisk(z, w, key)
  {
    if AtRisk(z, w, key) {
      var steps := Schedule(z, w, key);
    } else {
      hide Play, AtRisk;
      forall steps | OwnSteps(steps) ensures !Dangling(Play(z, w, steps), key) {
        RiskStays(z, w, steps, key);
      }
    }
  }
}
