/** The photo stage: attaching the photos of one zip to the listings its upload created, again and
    again until an attempt gets through. */
module ZipPhotos {
  import opened ListingStore

  // A photo of the archive: its path, the hash of its bytes, and whether a small copy can be made of
  // it. What is stored for it depends on its bytes alone.
  datatype Entry = Entry(path: string, hash: nat, fileName: string, thumb: bool)

  // The photos of one folder; the folder's name is a plate.
  datatype Folder = Folder(plate: Plate, entries: seq<Entry>)

  // The key of a zip photo is a hash of these four, taken as injective; other photos have random keys.
  datatype Key = FromZip(job: nat, listing: nat, path: string, hash: nat) | Other(id: nat)

  datatype Photo = Photo(key: Key, alt: string, thumb: bool, order: nat)

  // A listing of this upload.
  datatype Album = Album(id: nat, photos: seq<Photo>)

  datatype ObjectKey = Full(key: Key) | Small(key: Key)

  datatype Bytes = FullOf(hash: nat) | SmallOf(hash: nat) | Foreign(id: nat)

  datatype Store = Store(albums: map<Plate, Album>, objects: map<ObjectKey, Bytes>)

  datatype Report = Report(imagesAttached: nat, matchedListings: nat, unmatchedFolders: seq<Plate>)

  datatype Progress = Progress(store: Store, report: Report)

  datatype Config = Config(job: nat, maximum: nat)

  /* ----- One folder ----- */

  function KeyOf(c: Config, a: Album, e: Entry): Key {
    FromZip(c.job, a.id, e.path, e.hash)
  }

  function Keys(photos: seq<Photo>): set<Key> {
    set p | p in photos :: p.key
  }

  function EntryKeys(c: Config, a: Album, entries: seq<Entry>): set<Key> {
    set e | e in entries :: KeyOf(c, a, e)
  }

  // The entries whose key is not known yet.
  function Fresh(c: Config, a: Album, known: set<Key>, entries: seq<Entry>): seq<Entry>
    decreases |entries|
  {
    if entries == [] then []
    else
      var last := entries[|entries| - 1];
      Fresh(c, a, known, entries[..|entries| - 1]) + if KeyOf(c, a, last) in known then [] else [last]
  }

  function Capacity(c: Config, a: Album): nat {
    if |a.photos| <= c.maximum then c.maximum - |a.photos| else 0
  }

  // How many entries are attached already.
  function AlreadyAttached(c: Config, a: Album, known: set<Key>, entries: seq<Entry>): nat
    decreases |entries|
  {
    if entries == [] then 0
    else
      AlreadyAttached(c, a, known, entries[..|entries| - 1]) + if KeyOf(c, a, entries[|entries| - 1]) in known then 1
        else 0
  }

  function ToAttach(c: Config, a: Album, entries: seq<Entry>): seq<Entry> {
    var unattached := Fresh(c, a, Keys(a.photos), entries);
    if |unattached| <= Capacity(c, a) then unattached else unattached[..Capacity(c, a)]
  }

  function Placed(c: Config, a: Album, chosen: seq<Entry>): seq<Photo> {
    seq(|chosen|, i requires 0 <= i < |chosen| =>
      Photo(KeyOf(c, a, chosen[i]), chosen[i].fileName, chosen[i].thumb, |a.photos| + i))
  }

  function PutKeys(c: Config, a: Album, chosen: seq<Entry>): set<ObjectKey> {
    (set e | e in chosen :: Full(KeyOf(c, a, e))) + (set e | e in chosen && e.thumb :: Small(KeyOf(c, a, e)))
  }

  // What is stored under a key. It depends on the photo's bytes only.
  function Body(k: ObjectKey): Bytes {
    match k
    case Full(FromZip(_, _, _, h)) => FullOf(h)
    case Small(FromZip(_, _, _, h)) => SmallOf(h)
    case Full(Other(i)) => Foreign(i)
    case Small(Other(i)) => Foreign(i)
  }

  function Upload(objects: map<ObjectKey, Bytes>, puts: set<ObjectKey>): map<ObjectKey, Bytes> {
    map k | k in objects.Keys + puts :: if k in puts then Body(k) else objects[k]
  }

  // The conditional append: all of the photos or none.
  predicate AppendMatches(c: Config, a: Album, images: seq<Photo>) {
    Keys(a.photos) !! Keys(images) && |a.photos| + |images| <= c.maximum
  }

  // The objects of photos that could not be attached are removed again, full and small.
  function Cleanup(c: Config, a: Album, chosen: seq<Entry>): set<ObjectKey> {
    (set e | e in chosen :: Full(KeyOf(c, a, e))) + (set e | e in chosen :: Small(KeyOf(c, a, e)))
  }

  /* ----- One attempt ----- */

  // An attempt that read the listings as `read` when it started, at one folder.
  function AttachFolder(c: Config, read: map<Plate, Album>, p: Progress, f: Folder): Progress {
    var r := p.report;
    if f.plate !in read then p.(report := r.(unmatchedFolders := r.unmatchedFolders + [f.plate]))
    else
      var a := read[f.plate];
      var chosen := ToAttach(c, a, f.entries);
      var images := Placed(c, a, chosen);
      var counted := r.(matchedListings := r.matchedListings + 1,
        imagesAttached := r.imagesAttached + AlreadyAttached(c, a, Keys(a.photos), f.entries));
      var objects := Upload(p.store.objects, PutKeys(c, a, chosen));
      if chosen == [] then Progress(p.store, counted)
      else if f.plate in p.store.albums && AppendMatches(c, p.store.albums[f.plate], images) then
        var now := p.store.albums[f.plate];
        Progress(Store(p.store.albums[f.plate := now.(photos := now.photos + images)], objects),
          counted.(imagesAttached := counted.imagesAttached + |images|))
      else Progress(Store(p.store.albums, objects - Cleanup(c, a, chosen)), counted)
  }

  function AttachFolders(c: Config, read: map<Plate, Album>, s: Store, folders: seq<Folder>): Progress
    decreases |folders|
  {
    if folders == [] then Progress(s, Report(0, 0, []))
    else AttachFolder(c, read, AttachFolders(c, read, s, folders[..|folders| - 1]), folders[|folders| - 1])
  }

  function Attempt(c: Config, s: Store, folders: seq<Folder>): Progress {
    AttachFolders(c, s.albums, s, folders)
  }

  // An attempt that dies at folder `at`: after putting any of its objects, or after its append.
  datatype Crash = Crash(at: nat, landed: set<ObjectKey>, appended: bool)

  function Crashed(c: Config, s: Store, folders: seq<Folder>, crash: Crash): Store {
    if crash.at >= |folders| then Attempt(c, s, folders).store
    else
      var p := AttachFolders(c, s.albums, s, folders[..crash.at]);
      var f := folders[crash.at];
      if crash.appended then AttachFolder(c, s.albums, p, f).store
      else if f.plate !in s.albums then p.store
      else
        var a := s.albums[f.plate];
        p.store.(objects := Upload(p.store.objects, PutKeys(c, a, ToAttach(c, a, f.entries)) * crash.landed))
  }

  function AfterCrashes(c: Config, s: Store, folders: seq<Folder>, crashes: seq<Crash>): Store
    decreases |crashes|
  {
    if crashes == [] then s
    else Crashed(c, AfterCrashes(c, s, folders, crashes[..|crashes| - 1]), folders, crashes[|crashes| - 1])
  }

  /* ----- What one clean run does ----- */

  predicate DistinctEntries(entries: seq<Entry>) {
    forall i, j :: 0 <= i < j < |entries| ==> entries[i].path != entries[j].path || entries[i].hash != entries[j].hash
  }

  predicate DistinctPlates(folders: seq<Folder>) {
    forall i, j :: 0 <= i < j < |folders| ==> folders[i].plate != folders[j].plate
  }

  predicate WellFormed(folders: seq<Folder>) {
    && DistinctPlates(folders)
    && forall i :: 0 <= i < |folders| ==> DistinctEntries(folders[i].entries)
  }

  function Final(c: Config, a: Album, entries: seq<Entry>): Album {
    a.(photos := a.photos + Placed(c, a, ToAttach(c, a, entries)))
  }

  function Puts(c: Config, albums: map<Plate, Album>, f: Folder): set<ObjectKey> {
    if f.plate in albums then PutKeys(c, albums[f.plate], ToAttach(c, albums[f.plate], f.entries)) else {}
  }

  function AllPuts(c: Config, albums: map<Plate, Album>, folders: seq<Folder>): set<ObjectKey>
    decreases |folders|
  {
    if folders == [] then {}
    else AllPuts(c, albums, folders[..|folders| - 1]) + Puts(c, albums, folders[|folders| - 1])
  }

  // The fresh entries for which the listing has no room.
  function LeftOut(c: Config, a: Album, entries: seq<Entry>): seq<Entry> {
    Fresh(c, a, Keys(a.photos), entries)[|ToAttach(c, a, entries)|..]
  }

  // The photos a second attempt counts too many: left-out entries that repeat one that was attached.
  function Overcount(c: Config, a: Album, entries: seq<Entry>): nat {
    AlreadyAttached(c, a, EntryKeys(c, a, ToAttach(c, a, entries)), LeftOut(c, a, entries))
  }

  predicate NothingRepeated(c: Config, a: Album, entries: seq<Entry>) {
    forall e :: e in LeftOut(c, a, entries) ==> KeyOf(c, a, e) !in EntryKeys(c, a, ToAttach(c, a, entries))
  }

  // One folder in the report of a clean run that started from these listings.
  function Counted(c: Config, albums: map<Plate, Album>, r: Report, f: Folder): Report {
    if f.plate !in albums then r.(unmatchedFolders := r.unmatchedFolders + [f.plate])
    else
      var a := albums[f.plate];
      Report(r.imagesAttached + AlreadyAttached(c, a, Keys(a.photos), f.entries) + |ToAttach(c, a, f.entries)|,
        r.matchedListings + 1, r.unmatchedFolders)
  }

  function CleanReport(c: Config, albums: map<Plate, Album>, folders: seq<Folder>): Report
    decreases |folders|
  {
    if folders == [] then Report(0, 0, [])
    else Counted(c, albums, CleanReport(c, albums, folders[..|folders| - 1]), folders[|folders| - 1])
  }

  // One folder in the report of an attempt that finds it attached already, or not.
  function Recounted(c: Config, albums: map<Plate, Album>, r: Report, f: Folder, attached: bool): Report {
    var clean := Counted(c, albums, r, f);
    if attached && f.plate in albums
      then clean.(imagesAttached := clean.imagesAttached + Overcount(c, albums[f.plate], f.entries)) else clean
  }

  // The report of an attempt that finds the folders in `done` attached.
  function ReportAfter(c: Config, albums: map<Plate, Album>, folders: seq<Folder>, done: set<nat>): Report
    decreases |folders|
  {
    if folders == [] then Report(0, 0, [])
    else
      var n := |folders| - 1;
      Recounted(c, albums, ReportAfter(c, albums, folders[..n], done), folders[n], n in done)
  }

  /* ----- One folder, a second time ----- */

  lemma {:induction false} FreshPlusAlready(c: Config, a: Album, known: set<Key>, entries: seq<Entry>)
    ensures AlreadyAttached(c, a, known, entries) + |Fresh(c, a, known, entries)| == |entries|
    decreases |entries|
  {
    if entries != [] {
      FreshPlusAlready(c, a, known, entries[..|entries| - 1]);
    }
  }

  lemma {:induction false} FreshMembers(c: Config, a: Album, known: set<Key>, entries: seq<Entry>)
    ensures forall e :: e in Fresh(c, a, known, entries) <==> e in entries && KeyOf(c, a, e) !in known
    decreases |entries|
  {
    if entries != [] {
      var n := |entries| - 1;
      FreshMembers(c, a, known, entries[..n]);
      assert entries == entries[..n] + [entries[n]];
    }
  }

  lemma {:induction false} FreshDistinct(c: Config, a: Album, known: set<Key>, entries: seq<Entry>)
    requires DistinctEntries(entries)
    ensures DistinctEntries(Fresh(c, a, known, entries))
    decreases |entries|
  {
    if entries != [] {
      var n := |entries| - 1;
      FreshDistinct(c, a, known, entries[..n]);
      FreshMembers(c, a, known, entries[..n]);
      var before := Fresh(c, a, known, entries[..n]);
      forall i | 0 <= i < |before| ensures before[i].path != entries[n].path || before[i].hash != entries[n].hash {
        assert before[i] in entries[..n];
      }
    }
  }

  // Learning more keys is the same as looking again at what was fresh.
  lemma {:induction false} FreshAgain(c: Config, a: Album, known: set<Key>, more: set<Key>, entries: seq<Entry>)
    ensures Fresh(c, a, known + more, entries) == Fresh(c, a, more, Fresh(c, a, known, entries))
    decreases |entries|
  {
    if entries != [] {
      var n := |entries| - 1;
      FreshAgain(c, a, known, more, entries[..n]);
      var before := Fresh(c, a, known, entries[..n]);
      assert (before + [entries[n]])[..|before|] == before;
      assert Fresh(c, a, known, entries) == if KeyOf(c, a, entries[n]) in known then before else before + [entries[n]];
    }
  }

  lemma {:induction false} FreshConcat(c: Config, a: Album, known: set<Key>, first: seq<Entry>, second: seq<Entry>)
    ensures Fresh(c, a, known, first + second) == Fresh(c, a, known, first) + Fresh(c, a, known, second)
    decreases |second|
  {
    if second == [] {
      assert first + second == first;
    } else {
      var n := |second| - 1;
      assert (first + second)[..|first| + n] == first + second[..n];
      FreshConcat(c, a, known, first, second[..n]);
    }
  }

  // Once the first k fresh entries are attached, the fresh ones are those of the others that repeat
  // none of the first k; these are all of the others exactly when none repeats one.
  lemma FreshAfter(c: Config, a: Album, known: set<Key>, entries: seq<Entry>, k: nat)
    requires k <= |Fresh(c, a, known, entries)|
    ensures
      var unattached := Fresh(c, a, known, entries);
      var attached := EntryKeys(c, a, unattached[..k]);
      && Fresh(c, a, known + attached, entries) == Fresh(c, a, attached, unattached[k..])
      && (Fresh(c, a, known + attached, entries) == unattached[k..] <==> forall e :: e in unattached[k..] ==>
        KeyOf(c, a, e) !in attached)
  {
    var unattached := Fresh(c, a, known, entries);
    var attached := EntryKeys(c, a, unattached[..k]);
    FreshAgain(c, a, known, attached, entries);
    assert unattached == unattached[..k] + unattached[k..];
    FreshConcat(c, a, attached, unattached[..k], unattached[k..]);
    NothingFresh(c, a, attached, unattached[..k]);
    FreshMembers(c, a, attached, unattached[k..]);
    FreshPlusAlready(c, a, attached, unattached[k..]);
    NothingKnown(c, a, attached, unattached[k..]);
  }

  lemma {:induction false} NothingKnown(c: Config, a: Album, known: set<Key>, entries: seq<Entry>)
    ensures AlreadyAttached(c, a, known, entries) == 0 <==> forall e :: e in entries ==> KeyOf(c, a, e) !in known
    ensures AlreadyAttached(c, a, known, entries) == 0 ==> Fresh(c, a, known, entries) == entries
    decreases |entries|
  {
    if entries != [] {
      var n := |entries| - 1;
      NothingKnown(c, a, known, entries[..n]);
      assert entries == entries[..n] + [entries[n]];
    }
  }

  lemma {:induction false} NothingFresh(c: Config, a: Album, known: set<Key>, entries: seq<Entry>)
    requires forall e :: e in entries ==> KeyOf(c, a, e) in known
    ensures Fresh(c, a, known, entries) == []
    decreases |entries|
  {
    if entries != [] {
      NothingFresh(c, a, known, entries[..|entries| - 1]);
    }
  }

  lemma PlacedKeys(c: Config, a: Album, chosen: seq<Entry>)
    ensures Keys(Placed(c, a, chosen)) == EntryKeys(c, a, chosen)
    ensures Keys(a.photos + Placed(c, a, chosen)) == Keys(a.photos) + EntryKeys(c, a, chosen)
  {
    var images := Placed(c, a, chosen);
    forall e | e in chosen ensures KeyOf(c, a, e) in Keys(images) {
      var i :| 0 <= i < |chosen| && chosen[i] == e;
      assert images[i] in images;
    }
    forall p | p in images ensures p.key in EntryKeys(c, a, chosen) {
      var i :| 0 <= i < |images| && images[i] == p;
      assert chosen[i] in chosen;
    }
  }

  // A folder that has been attached attaches nothing more, whatever its entries. It counts the same
  // photos and those of the left-out ones that repeat an attached one; so it counts the same exactly
  // when nothing is repeated.
  lemma SecondTime(c: Config, a: Album, entries: seq<Entry>)
    ensures
      var again := Final(c, a, entries);
      && ToAttach(c, again, entries) == []
      && AlreadyAttached(c, again, Keys(again.photos), entries) ==
           AlreadyAttached(c, a, Keys(a.photos), entries) + |ToAttach(c, a, entries)| + Overcount(c, a, entries)
    ensures Overcount(c, a, entries) == 0 <==> NothingRepeated(c, a, entries)
  {
    var again := Final(c, a, entries);
    var chosen := ToAttach(c, a, entries);
    var unattached := Fresh(c, a, Keys(a.photos), entries);
    var k := |chosen|;
    assert chosen == unattached[..k];
    var attached := EntryKeys(c, a, chosen);
    PlacedKeys(c, a, chosen);
    FreshAfter(c, a, Keys(a.photos), entries, k);
    SameKeys(c, a, again, Keys(again.photos), entries);
    FreshPlusAlready(c, a, Keys(a.photos), entries);
    FreshPlusAlready(c, again, Keys(again.photos), entries);
    FreshPlusAlready(c, a, attached, unattached[k..]);
    NothingKnown(c, a, attached, unattached[k..]);
  }

  // Entries that differ in path or content repeat nothing.
  lemma DistinctRepeatNothing(c: Config, a: Album, entries: seq<Entry>)
    requires DistinctEntries(entries)
    ensures NothingRepeated(c, a, entries) && DistinctEntries(ToAttach(c, a, entries))
  {
    var unattached := Fresh(c, a, Keys(a.photos), entries);
    FreshDistinct(c, a, Keys(a.photos), entries);
    forall e, e' | e in LeftOut(c, a, entries) && e' in ToAttach(c, a, entries)
      ensures KeyOf(c, a, e) != KeyOf(c, a, e') {
      var i :| 0 <= i < |LeftOut(c, a, entries)| && LeftOut(c, a, entries)[i] == e;
      var j :| 0 <= j < |ToAttach(c, a, entries)| && ToAttach(c, a, entries)[j] == e';
      assert unattached[j] == e' && unattached[|ToAttach(c, a, entries)| + i] == e;
    }
  }

  // Keys depend on the listing's ID only.
  lemma {:induction false} SameKeys(c: Config, a: Album, b: Album, known: set<Key>, entries: seq<Entry>)
    requires a.id == b.id
    ensures Fresh(c, a, known, entries) == Fresh(c, b, known, entries)
    decreases |entries|
  {
    if entries != [] {
      SameKeys(c, a, b, known, entries[..|entries| - 1]);
    }
  }

  // A folder that has not been attached passes the guard of the append.
  lemma FirstTime(c: Config, a: Album, entries: seq<Entry>)
    requires ToAttach(c, a, entries) != []
    ensures AppendMatches(c, a, Placed(c, a, ToAttach(c, a, entries)))
  {
    var chosen := ToAttach(c, a, entries);
    PlacedKeys(c, a, chosen);
    FreshMembers(c, a, Keys(a.photos), entries);
  }

  predicate DistinctKeys(photos: seq<Photo>) {
    forall i, j :: 0 <= i < j < |photos| ==> photos[i].key != photos[j].key
  }

  // No key is attached twice if and only if the entries chosen are distinct. In any case the new photos
  // are placed behind the old ones, the limit is kept, and an entry is left out only when the listing
  // is full.
  lemma FinalIsSound(c: Config, a: Album, entries: seq<Entry>)
    ensures DistinctKeys(a.photos) ==>
      (DistinctKeys(Final(c, a, entries).photos) <==> DistinctEntries(ToAttach(c, a, entries)))
    ensures a.photos <= Final(c, a, entries).photos
    ensures forall i :: |a.photos| <= i < |Final(c, a, entries).photos| ==> Final(c, a, entries).photos[i].order == i
    ensures |Final(c, a, entries).photos| <= if |a.photos| <= c.maximum then c.maximum else |a.photos|
    ensures forall e :: e in entries && KeyOf(c, a, e) !in Keys(Final(c, a, entries).photos) ==>
      |Final(c, a, entries).photos| >= c.maximum
  {
    var chosen := ToAttach(c, a, entries);
    PlacedKeys(c, a, chosen);
    FreshMembers(c, a, Keys(a.photos), entries);
    if DistinctKeys(a.photos) {
      KeysDistinctIff(c, a, chosen);
    }
  }

  lemma KeysDistinctIff(c: Config, a: Album, chosen: seq<Entry>)
    requires DistinctKeys(a.photos)
    requires forall e :: e in chosen ==> KeyOf(c, a, e) !in Keys(a.photos)
    ensures DistinctKeys(a.photos + Placed(c, a, chosen)) <==> DistinctEntries(chosen)
  {
    var n := |a.photos|;
    var photos := a.photos + Placed(c, a, chosen);
    forall i | 0 <= i < |chosen|
      ensures photos[n + i].key == KeyOf(c, a, chosen[i]) && photos[n + i].key !in Keys(a.photos) {
      assert chosen[i] in chosen;
    }
    forall i | 0 <= i < n ensures photos[i].key in Keys(a.photos) {
      assert photos[i] == a.photos[i];
    }
    if DistinctEntries(chosen) {
      forall i, j | 0 <= i < j < |photos| ensures photos[i].key != photos[j].key {
        if j < n {
          assert photos[i] == a.photos[i] && photos[j] == a.photos[j];
        } else {
          assert photos[n + (j - n)].key == KeyOf(c, a, chosen[j - n]);
          if i >= n {
            assert photos[n + (i - n)].key == KeyOf(c, a, chosen[i - n]);
          }
        }
      }
    }
    if DistinctKeys(photos) {
      forall i, j | 0 <= i < j < |chosen| ensures chosen[i].path != chosen[j].path || chosen[i].hash != chosen[j].hash {
        assert photos[n + i].key != photos[n + j].key;
      }
    }
  }

  /* ----- Between a crash and a clean run ----- */

  // Some of the folders are attached, the others are as they were; the objects are the original ones
  // and some of those a clean run puts, among them all that belong to an attached folder.
  ghost predicate Mixed(c: Config, s0: Store, folders: seq<Folder>, s: Store, done: set<nat>, landed: set<ObjectKey>) {
    && AlbumsMixed(c, s0.albums, folders, s.albums, done)
    && s.objects == Upload(s0.objects, landed)
    && landed <= AllPuts(c, s0.albums, folders)
    && forall i :: i in done ==> i < |folders| && Puts(c, s0.albums, folders[i]) <= landed
  }

  ghost predicate AlbumsMixed(c: Config, start: map<Plate, Album>, folders: seq<Folder>, albums: map<Plate, Album>,
      done: set<nat>) {
    && albums.Keys == start.Keys
    && (forall p :: p in start && (forall i: nat :: i < |folders| ==> folders[i].plate != p) ==> albums[p] == start[p])
    && (forall i: nat :: i < |folders| && folders[i].plate in start ==>
          albums[folders[i].plate] == if i in done then Final(c, start[folders[i].plate], folders[i].entries)
            else start[folders[i].plate])
  }

  function Upto(n: nat): (r: set<nat>)
    ensures forall i: nat :: i in r <==> i < n
  {
    if n == 0 then {} else Upto(n - 1) + {n - 1}
  }

  lemma {:induction false} PutsAmongAll(c: Config, albums: map<Plate, Album>, folders: seq<Folder>, n: nat)
    requires n <= |folders|
    ensures AllPuts(c, albums, folders[..n]) <= AllPuts(c, albums, folders)
    ensures n < |folders| ==> Puts(c, albums, folders[n]) <= AllPuts(c, albums, folders)
    decreases |folders|
  {
    if n == |folders| {
      assert folders[..n] == folders;
    } else {
      var m := |folders| - 1;
      PutsAmongAll(c, albums, folders[..m], n);
      assert folders[..m][..n] == folders[..n];
    }
  }

  lemma UploadTwice(objects: map<ObjectKey, Bytes>, a: set<ObjectKey>, b: set<ObjectKey>)
    ensures Upload(Upload(objects, a), b) == Upload(objects, a + b)
  {
  }

  // The store a folder leaves when nobody else changes its listing.
  lemma FolderStore(c: Config, s0: Store, read: map<Plate, Album>, p: Progress, f: Folder)
    requires f.plate in s0.albums && f.plate in read && f.plate in p.store.albums
    requires p.store.albums[f.plate] == read[f.plate]
    ensures read[f.plate] == Final(c, s0.albums[f.plate], f.entries) ==> AttachFolder(c, read, p, f).store == p.store
    ensures read[f.plate] == s0.albums[f.plate] ==>
      AttachFolder(c, read, p, f).store ==
        Store(p.store.albums[f.plate := Final(c, s0.albums[f.plate], f.entries)],
        Upload(p.store.objects, Puts(c, s0.albums, f)))
  {
    var a0 := s0.albums[f.plate];
    var chosen := ToAttach(c, a0, f.entries);
    SecondTime(c, a0, f.entries);
    if read[f.plate] == a0 {
      if chosen == [] {
        assert Final(c, a0, f.entries) == a0;
        assert p.store.albums[f.plate := a0] == p.store.albums;
        assert Upload(p.store.objects, {}) == p.store.objects;
      } else {
        FirstTime(c, a0, f.entries);
      }
    }
  }

  lemma AlbumsAdvance(c: Config, start: map<Plate, Album>, folders: seq<Folder>, albums: map<Plate, Album>, n: nat,
      done: set<nat>)
    requires DistinctPlates(folders) && n < |folders| && AlbumsMixed(c, start, folders, albums, done) &&
      folders[n].plate in start
    ensures
      var f := folders[n];
      AlbumsMixed(c, start, folders, albums[f.plate := Final(c, start[f.plate], f.entries)], done + {n})
  {
    hide Final;
    var f := folders[n];
    var after := albums[f.plate := Final(c, start[f.plate], f.entries)];
    forall i: nat | i < |folders| && folders[i].plate in start
      ensures after[folders[i].plate] ==
        if i in done + {n} then Final(c, start[folders[i].plate], folders[i].entries) else start[folders[i].plate]
    {
      assert i == n || folders[i].plate != f.plate;
    }
    hide DistinctPlates;
  }

  lemma MixedAdvance(c: Config, s0: Store, folders: seq<Folder>, s: Store, n: nat, done: set<nat>,
      landed: set<ObjectKey>)
    requires DistinctPlates(folders) && n < |folders| && Mixed(c, s0, folders, s, done, landed) &&
      folders[n].plate in s0.albums
    ensures
      var f := folders[n];
      var after := Store(s.albums[f.plate := Final(c, s0.albums[f.plate], f.entries)],
        Upload(s.objects, Puts(c, s0.albums, f)));
      Mixed(c, s0, folders, after, done + {n}, landed + Puts(c, s0.albums, f))
  {
    PutsAmongAll(c, s0.albums, folders, n);
    UploadTwice(s0.objects, landed, Puts(c, s0.albums, folders[n]));
    AlbumsAdvance(c, s0.albums, folders, s.albums, n, done);
    hide Final, Upload, AllPuts, Puts, AlbumsMixed, DistinctPlates;
  }

  // What a mixed store says about one folder's listing.
  lemma MixedAt(c: Config, s0: Store, folders: seq<Folder>, s: Store, n: nat, done: set<nat>, landed: set<ObjectKey>)
    requires n < |folders| && Mixed(c, s0, folders, s, done, landed)
    ensures folders[n].plate in s0.albums <==> folders[n].plate in s.albums
    ensures folders[n].plate in s0.albums ==>
      s.albums[folders[n].plate] == if n in done then Final(c, s0.albums[folders[n].plate], folders[n].entries)
        else s0.albums[folders[n].plate]
    ensures n in done ==> landed + Puts(c, s0.albums, folders[n]) == landed && done + {n} == done
  {
  }

  lemma MixedSkips(c: Config, s0: Store, folders: seq<Folder>, s: Store, n: nat, done: set<nat>, landed: set<ObjectKey>)
    requires n < |folders| && Mixed(c, s0, folders, s, done, landed) && folders[n].plate !in s0.albums
    ensures Mixed(c, s0, folders, s, done + {n}, landed + Puts(c, s0.albums, folders[n]))
  {
    assert landed + Puts(c, s0.albums, folders[n]) == landed;
    hide Final, Upload, AllPuts, Puts;
  }

  // Some more of the objects a clean run puts.
  lemma MixedLands(c: Config, s0: Store, folders: seq<Folder>, s: Store, done: set<nat>, landed: set<ObjectKey>,
      puts: set<ObjectKey>)
    requires Mixed(c, s0, folders, s, done, landed) && puts <= AllPuts(c, s0.albums, folders)
    ensures Mixed(c, s0, folders, s.(objects := Upload(s.objects, puts)), done, landed + puts)
  {
    UploadTwice(s0.objects, landed, puts);
    hide Final, Upload, AllPuts, Puts;
  }

  // What one folder does to the store, in an attempt that started from `start`.
  lemma FolderStep(c: Config, s0: Store, folders: seq<Folder>, start: Store, p: Progress, n: nat, done: set<nat>,
      landed: set<ObjectKey>)
    requires DistinctPlates(folders) && n < |folders|
    requires start.albums.Keys == s0.albums.Keys && Mixed(c, s0, folders, p.store, done, landed)
    requires folders[n].plate in s0.albums ==> start.albums[folders[n].plate] == p.store.albums[folders[n].plate]
    ensures
      var after := AttachFolder(c, start.albums, p, folders[n]);
      && Mixed(c, s0, folders, after.store, done + {n}, landed + Puts(c, s0.albums, folders[n]))
      && forall q :: q in s0.albums && q != folders[n].plate ==> after.store.albums[q] == p.store.albums[q]
  {
    var f := folders[n];
    MixedAt(c, s0, folders, p.store, n, done, landed);
    if f.plate in s0.albums {
      hide Mixed, Final, Upload, Puts;
      FolderStore(c, s0, start.albums, p, f);
      hide AttachFolder;
      if n !in done {
        MixedAdvance(c, s0, folders, p.store, n, done, landed);
      }
    } else {
      hide Mixed;
      MixedSkips(c, s0, folders, p.store, n, done, landed);
    }
  }

  lemma ReportStep(c: Config, s0: Store, f: Folder, read: map<Plate, Album>, p: Progress, attached: bool)
    requires read.Keys == s0.albums.Keys
    requires f.plate in read ==> f.plate in p.store.albums && p.store.albums[f.plate] == read[f.plate]
    requires f.plate in read ==>
      read[f.plate] == if attached then Final(c, s0.albums[f.plate], f.entries) else s0.albums[f.plate]
    ensures AttachFolder(c, read, p, f).report == Recounted(c, s0.albums, p.report, f, attached)
  {
    if f.plate in read {
      SecondTime(c, s0.albums[f.plate], f.entries);
      if ToAttach(c, read[f.plate], f.entries) != [] {
        FirstTime(c, read[f.plate], f.entries);
      }
    }
  }

  // After n folders of an attempt that started from `start`: the later ones are untouched.
  ghost predicate Along(c: Config, s0: Store, folders: seq<Folder>, start: Store, n: nat, p: Progress, done: set<nat>,
      landed: set<ObjectKey>)
    requires start.albums.Keys == s0.albums.Keys
  {
    && Mixed(c, s0, folders, p.store, done, landed)
    && forall i: nat :: n <= i < |folders| && folders[i].plate in s0.albums ==>
      p.store.albums[folders[i].plate] == start.albums[folders[i].plate]
  }

  lemma AlongStep(c: Config, s0: Store, folders: seq<Folder>, start: Store, n: nat, p: Progress, done: set<nat>,
      landed: set<ObjectKey>)
    requires DistinctPlates(folders) && n < |folders| && start.albums.Keys == s0.albums.Keys
    requires Along(c, s0, folders, start, n, p, done, landed)
    ensures Along(c, s0, folders, start, n + 1, AttachFolder(c, start.albums, p, folders[n]), done + {n},
      landed + Puts(c, s0.albums, folders[n]))
    ensures AttachFolder(c, start.albums, p, folders[n]).report ==
      Recounted(c, s0.albums, p.report, folders[n], n in done)
  {
    FolderStep(c, s0, folders, start, p, n, done, landed);
    ReportStep(c, s0, folders[n], start.albums, p, n in done);
  }

  lemma AllPutsStep(c: Config, albums: map<Plate, Album>, folders: seq<Folder>, n: nat, landed: set<ObjectKey>)
    requires 0 < n <= |folders|
    ensures folders[..n][..n - 1] == folders[..n - 1]
    ensures landed + AllPuts(c, albums, folders[..n - 1]) + Puts(c, albums, folders[n - 1]) ==
      landed + AllPuts(c, albums, folders[..n])
  {
  }

  // The first n folders of an attempt.
  lemma {:induction false} FoldersStep(c: Config, s0: Store, folders: seq<Folder>, start: Store, n: nat,
      done: set<nat>, landed: set<ObjectKey>)
    requires DistinctPlates(folders) && n <= |folders| && Mixed(c, s0, folders, start, done, landed)
    ensures Along(c, s0, folders, start, n, AttachFolders(c, start.albums, start, folders[..n]), done + Upto(n),
      landed + AllPuts(c, s0.albums, folders[..n]))
    ensures AttachFolders(c, start.albums, start, folders[..n]).report == ReportAfter(c, s0.albums, folders[..n], done)
    decreases n
  {
    if n == 0 {
      assert done + Upto(0) == done && landed + {} == landed;
    } else {
      var m := n - 1;
      FoldersStep(c, s0, folders, start, m, done, landed);
      AlongStep(c, s0, folders, start, m, AttachFolders(c, start.albums, start, folders[..m]), done + Upto(m),
        landed + AllPuts(c, s0.albums, folders[..m]));
      assert done + Upto(m) + {m} == done + Upto(n);
      assert m in done + Upto(m) <==> m in done;
      AllPutsStep(c, s0.albums, folders, n, landed);
    }
  }

  lemma CrashKeepsMixed(c: Config, s0: Store, folders: seq<Folder>, s: Store, crash: Crash, done: set<nat>,
      landed: set<ObjectKey>)
    returns (done': set<nat>, landed': set<ObjectKey>)
    requires DistinctPlates(folders) && Mixed(c, s0, folders, s, done, landed)
    ensures Mixed(c, s0, folders, Crashed(c, s, folders, crash), done', landed')
  {
    var n := if crash.at <= |folders| then crash.at else |folders|;
    assert s.albums.Keys == s0.albums.Keys;
    FoldersStep(c, s0, folders, s, n, done, landed);
    assert folders[..|folders|] == folders;
    done', landed' := done + Upto(n), landed + AllPuts(c, s0.albums, folders[..n]);
    if n < |folders| {
      var p := AttachFolders(c, s.albums, s, folders[..n]);
      assert Mixed(c, s0, folders, p.store, done', landed');
      MixedAt(c, s0, folders, s, n, done, landed);
      hide Mixed, Final, Upload;
      if crash.appended {
        FolderStep(c, s0, folders, s, p, n, done', landed');
        done', landed' := done' + {n}, landed' + Puts(c, s0.albums, folders[n]);
      } else if folders[n].plate in s.albums {
        landed' := CrashLands(c, s0, folders, s, p.store, n, done, done', landed', crash.landed);
      }
    }
  }

  // The attempt dies among the uploads of folder n.
  lemma CrashLands(c: Config, s0: Store, folders: seq<Folder>, s: Store, now: Store, n: nat, before: set<nat>,
      done: set<nat>, landed: set<ObjectKey>, more: set<ObjectKey>)
    returns (landed': set<ObjectKey>)
    requires n < |folders| && Mixed(c, s0, folders, now, done, landed) && folders[n].plate in s.albums &&
      folders[n].plate in s0.albums
    requires s.albums[folders[n].plate] ==
      if n in before then Final(c, s0.albums[folders[n].plate], folders[n].entries) else s0.albums[folders[n].plate]
    ensures
      var a := s.albums[folders[n].plate];
      Mixed(c, s0, folders,
        now.(objects := Upload(now.objects, PutKeys(c, a, ToAttach(c, a, folders[n].entries)) * more)), done, landed')
  {
    var f := folders[n];
    var puts := PutKeys(c, s.albums[f.plate], ToAttach(c, s.albums[f.plate], f.entries)) * more;
    PutsAmongAll(c, s0.albums, folders, n);
    SecondTime(c, s0.albums[f.plate], f.entries);
    hide Mixed, Final, Upload, ToAttach;
    assert puts <= Puts(c, s0.albums, f);
    MixedLands(c, s0, folders, now, done, landed, puts);
    landed' := landed + puts;
  }

  lemma {:induction false} CrashesKeepMixed(c: Config, s0: Store, folders: seq<Folder>, crashes: seq<Crash>)
    returns (done: set<nat>, landed: set<ObjectKey>)
    requires DistinctPlates(folders)
    ensures Mixed(c, s0, folders, AfterCrashes(c, s0, folders, crashes), done, landed)
    decreases |crashes|
  {
    if crashes == [] {
      done, landed := {}, {};
      assert s0.objects == Upload(s0.objects, {});
    } else {
      var n := |crashes| - 1;
      var d, l := CrashesKeepMixed(c, s0, folders, crashes[..n]);
      done, landed := CrashKeepsMixed(c, s0, folders, AfterCrashes(c, s0, folders, crashes[..n]), crashes[n], d, l);
    }
  }

  /* ----- Results ----- */

  lemma CleanRunFrom(c: Config, s0: Store, folders: seq<Folder>, s: Store, done: set<nat>, landed: set<ObjectKey>)
    requires DistinctPlates(folders) && Mixed(c, s0, folders, s, done, landed)
    ensures Mixed(c, s0, folders, Attempt(c, s, folders).store, Upto(|folders|), AllPuts(c, s0.albums, folders))
    ensures Attempt(c, s, folders).report == ReportAfter(c, s0.albums, folders, done)
  {
    FoldersStep(c, s0, folders, s, |folders|, done, landed);
    assert folders[..|folders|] == folders;
    assert done + Upto(|folders|) == Upto(|folders|);
    assert landed + AllPuts(c, s0.albums, folders) == AllPuts(c, s0.albums, folders);
  }

  lemma MixedDeterminesStore(c: Config, s0: Store, folders: seq<Folder>, a: Store, b: Store)
    requires Mixed(c, s0, folders, a, Upto(|folders|), AllPuts(c, s0.albums, folders))
    requires Mixed(c, s0, folders, b, Upto(|folders|), AllPuts(c, s0.albums, folders))
    ensures a == b
  {
    forall p | p in s0.albums ensures a.albums[p] == b.albums[p] {
      if i: nat :| i < |folders| && folders[i].plate == p {
        assert i in Upto(|folders|);
      }
    }
    assert a.albums == b.albums;
  }

  // No folder's listing leaves out an entry that repeats one it attached.
  predicate NoneRepeated(c: Config, albums: map<Plate, Album>, folders: seq<Folder>) {
    forall i :: 0 <= i < |folders| && folders[i].plate in albums ==>
      NothingRepeated(c, albums[folders[i].plate], folders[i].entries)
  }

  lemma WellFormedRepeatNothing(c: Config, albums: map<Plate, Album>, folders: seq<Folder>)
    requires WellFormed(folders)
    ensures NoneRepeated(c, albums, folders)
  {
    forall i | 0 <= i < |folders| && folders[i].plate in albums
      ensures NothingRepeated(c, albums[folders[i].plate], folders[i].entries) {
      DistinctRepeatNothing(c, albums[folders[i].plate], folders[i].entries);
    }
  }

  // An attempt that finds folders attached reports no fewer photos than a clean one and otherwise the
  // same; with every folder attached it reports the same only if nothing is repeated.
  lemma {:induction false} ReportAfterIs(c: Config, albums: map<Plate, Album>, folders: seq<Folder>, done: set<nat>)
    ensures
      var report, clean := ReportAfter(c, albums, folders, done), CleanReport(c, albums, folders);
      && report.(imagesAttached := clean.imagesAttached) == clean
      && report.imagesAttached >= clean.imagesAttached
      && (NoneRepeated(c, albums, folders) ==> report == clean)
      && (report == clean && (forall i: nat :: i < |folders| ==> i in done) ==> NoneRepeated(c, albums, folders))
    decreases |folders|
  {
    if folders != [] {
      var n := |folders| - 1;
      ReportAfterIs(c, albums, folders[..n], done);
      RecountedIs(c, albums, ReportAfter(c, albums, folders[..n], done), CleanReport(c, albums, folders[..n]),
        folders[n], n in done);
      NoneRepeatedStep(c, albums, folders);
      hide NothingRepeated, NoneRepeated, Recounted, Counted;
    }
  }

  // One folder adds no less to the one report than to the other.
  lemma RecountedIs(c: Config, albums: map<Plate, Album>, report: Report, clean: Report, f: Folder, attached: bool)
    requires report.(imagesAttached := clean.imagesAttached) == clean && report.imagesAttached >= clean.imagesAttached
    ensures
      var next, cleanNext := Recounted(c, albums, report, f, attached), Counted(c, albums, clean, f);
      && next.(imagesAttached := cleanNext.imagesAttached) == cleanNext
      && next.imagesAttached - cleanNext.imagesAttached >= report.imagesAttached - clean.imagesAttached
      && (next == cleanNext <==>
        report == clean && (attached && f.plate in albums ==> NothingRepeated(c, albums[f.plate], f.entries)))
  {
    if f.plate in albums {
      SecondTime(c, albums[f.plate], f.entries);
    }
    hide NothingRepeated, Overcount, AlreadyAttached, ToAttach;
  }

  lemma NoneRepeatedStep(c: Config, albums: map<Plate, Album>, folders: seq<Folder>)
    requires folders != []
    ensures
      var n := |folders| - 1;
      NoneRepeated(c, albums, folders) <==>
        NoneRepeated(c, albums, folders[..n]) &&
          (folders[n].plate in albums ==> NothingRepeated(c, albums[folders[n].plate], folders[n].entries))
  {
    hide NothingRepeated;
    assert folders == folders[..|folders| - 1] + [folders[|folders| - 1]];
  }

  // However often the stage dies and wherever, the attempt that gets through leaves the same photos and
  // the same objects as one clean run and finds the same folders matched. It reports as many photos
  // as the clean run or more, and the same when no left-out entry repeats an attached one, as photos
  // that differ in path or content never do.
  lemma RetriesEqualOneCleanRun(c: Config, s0: Store, folders: seq<Folder>, crashes: seq<Crash>)
    requires DistinctPlates(folders)
    ensures
      var retried, clean := Attempt(c, AfterCrashes(c, s0, folders, crashes), folders), Attempt(c, s0, folders);
      && retried.store == clean.store
      && clean.report == CleanReport(c, s0.albums, folders)
      && retried.report.(imagesAttached := clean.report.imagesAttached) == clean.report
      && retried.report.imagesAttached >= clean.report.imagesAttached
      && (NoneRepeated(c, s0.albums, folders) ==> retried == clean)
      && (WellFormed(folders) ==> retried == clean)
  {
    var s := AfterCrashes(c, s0, folders, crashes);
    var done, landed := CrashesKeepMixed(c, s0, folders, crashes);
    CleanRunFrom(c, s0, folders, s, done, landed);
    assert s0.objects == Upload(s0.objects, {});
    CleanRunFrom(c, s0, folders, s0, {}, {});
    MixedDeterminesStore(c, s0, folders, Attempt(c, s, folders).store, Attempt(c, s0, folders).store);
    ReportAfterIs(c, s0.albums, folders, done);
    NobodyDone(c, s0.albums, folders);
    if WellFormed(folders) {
      WellFormedRepeatNothing(c, s0.albums, folders);
    }
  }

  lemma {:induction false} NobodyDone(c: Config, albums: map<Plate, Album>, folders: seq<Folder>)
    ensures ReportAfter(c, albums, folders, {}) == CleanReport(c, albums, folders)
    decreases |folders|
  {
    if folders != [] {
      NobodyDone(c, albums, folders[..|folders| - 1]);
    }
  }

  // The report is the clean one after every history of crashes if and only if nothing is repeated.
  lemma ReportsAgreeIff(c: Config, s0: Store, folders: seq<Folder>)
    requires DistinctPlates(folders)
    ensures
      (forall crashes ::
        Attempt(c, AfterCrashes(c, s0, folders, crashes), folders).report == Attempt(c, s0, folders).report) <==>
      NoneRepeated(c, s0.albums, folders)
  {
    forall crashes ensures NoneRepeated(c, s0.albums, folders) ==>
        Attempt(c, AfterCrashes(c, s0, folders, crashes), folders).report == Attempt(c, s0, folders).report {
      RetriesEqualOneCleanRun(c, s0, folders, crashes);
    }
    var dead := [Crash(|folders|, {}, false)];
    AfterOneWholeAttempt(c, s0, folders);
    if Attempt(c, AfterCrashes(c, s0, folders, dead), folders).report == Attempt(c, s0, folders).report {
      assert NoneRepeated(c, s0.albums, folders);
    }
  }

  // An attempt that dies after its last folder leaves every folder attached.
  lemma AfterOneWholeAttempt(c: Config, s0: Store, folders: seq<Folder>)
    requires DistinctPlates(folders)
    ensures
      var s := AfterCrashes(c, s0, folders, [Crash(|folders|, {}, false)]);
      Attempt(c, s, folders).report == Attempt(c, s0, folders).report ==> NoneRepeated(c, s0.albums, folders)
  {
    assert s0.objects == Upload(s0.objects, {});
    CleanRunFrom(c, s0, folders, s0, {}, {});
    var s := Attempt(c, s0, folders).store;
    assert [Crash(|folders|, {}, false)][..0] == [];
    assert s == AfterCrashes(c, s0, folders, [Crash(|folders|, {}, false)]);
    CleanRunFrom(c, s0, folders, s, Upto(|folders|), AllPuts(c, s0.albums, folders));
    ReportAfterIs(c, s0.albums, folders, Upto(|folders|));
    NobodyDone(c, s0.albums, folders);
  }

  // At any moment between attempts every listing has its old photos or its final ones, so the limit
  // holds throughout, and no key is attached twice unless the folder's chosen entries repeat one.
  lemma AlbumsStaySound(c: Config, s0: Store, folders: seq<Folder>, crashes: seq<Crash>, p: Plate)
    requires DistinctPlates(folders) && p in s0.albums && DistinctKeys(s0.albums[p].photos) &&
      |s0.albums[p].photos| <= c.maximum
    ensures p in AfterCrashes(c, s0, folders, crashes).albums
    ensures
      var a := AfterCrashes(c, s0, folders, crashes).albums[p];
      && |a.photos| <= c.maximum
      && s0.albums[p].photos <= a.photos
      && (a == s0.albums[p] || exists i: nat ::
            && i < |folders| && folders[i].plate == p && a == Final(c, s0.albums[p], folders[i].entries)
            && (DistinctKeys(a.photos) <==> DistinctEntries(ToAttach(c, s0.albums[p], folders[i].entries))))
      && (WellFormed(folders) ==> DistinctKeys(a.photos))
  {
    var done, landed := CrashesKeepMixed(c, s0, folders, crashes);
    if i: nat :| i < |folders| && folders[i].plate == p {
      FinalIsSound(c, s0.albums[p], folders[i].entries);
      if WellFormed(folders) {
        DistinctRepeatNothing(c, s0.albums[p], folders[i].entries);
      }
    }
  }

  // A photo that was attached from the archive has its object, and every listed photo of a clean run
  // is an old one or an entry of the listing's folder.
  lemma NoDanglingPhoto(c: Config, s0: Store, folders: seq<Folder>, crashes: seq<Crash>, p: Plate, photo: Photo)
    requires DistinctPlates(folders) && p in s0.albums
    requires p in AfterCrashes(c, s0, folders, crashes).albums
    requires photo in AfterCrashes(c, s0, folders, crashes).albums[p].photos && photo !in s0.albums[p].photos
    ensures Full(photo.key) in AfterCrashes(c, s0, folders, crashes).objects
    ensures photo.thumb ==> Small(photo.key) in AfterCrashes(c, s0, folders, crashes).objects
  {
    var s := AfterCrashes(c, s0, folders, crashes);
    var done, landed := CrashesKeepMixed(c, s0, folders, crashes);
    var i: nat :| i < |folders| && folders[i].plate == p;
    var a := s0.albums[p];
    var chosen := ToAttach(c, a, folders[i].entries);
    assert photo in Placed(c, a, chosen);
    var k :| 0 <= k < |chosen| && Placed(c, a, chosen)[k] == photo;
    assert chosen[k] in chosen;
    assert Full(photo.key) in Puts(c, s0.albums, folders[i]);
    assert photo.thumb ==> Small(photo.key) in Puts(c, s0.albums, folders[i]);
  }

  // When the append is refused, the objects just put are taken away again and nothing else changes.
  lemma RefusedAppendCleansUp(c: Config, read: map<Plate, Album>, p: Progress, f: Folder)
    requires f.plate in read && f.plate in p.store.albums
    requires
      var images := Placed(c, read[f.plate], ToAttach(c, read[f.plate], f.entries));
      images != [] && !AppendMatches(c, p.store.albums[f.plate], images)
    ensures
      var a, after := read[f.plate], AttachFolder(c, read, p, f);
      && after.store.albums == p.store.albums
      && after.report.imagesAttached == p.report.imagesAttached + AlreadyAttached(c, a, Keys(a.photos), f.entries)
      && (forall e :: e in ToAttach(c, a, f.entries) ==>
        Full(KeyOf(c, a, e)) !in after.store.objects && Small(KeyOf(c, a, e)) !in after.store.objects)
      && forall k :: k !in Cleanup(c, a, ToAttach(c, a, f.entries)) ==>
           (k in after.store.objects <==> k in p.store.objects) &&
             (k in p.store.objects ==> after.store.objects[k] == p.store.objects[k])
  {
    var a := read[f.plate];
    var chosen := ToAttach(c, a, f.entries);
    assert PutKeys(c, a, chosen) <= Cleanup(c, a, chosen);
  }

  // A listed photo is without its object.
  ghost predicate Dangling(c: Config, s: Store, plate: Plate, photo: Photo)
    requires plate in s.albums
  {
    photo in s.albums[plate].photos && Full(photo.key) !in s.objects
  }

  // A folder leaves a photo of its listing without its object if and only if some key it was about to
  // attach has been attached since the listings were read.
  lemma DanglesIff(c: Config, read: map<Plate, Album>, p: Progress, f: Folder)
    requires f.plate in read && f.plate in p.store.albums && read[f.plate].id == p.store.albums[f.plate].id
    requires forall photo :: photo in p.store.albums[f.plate].photos ==> !Dangling(c, p.store, f.plate, photo)
    ensures f.plate in AttachFolder(c, read, p, f).store.albums
    ensures (exists photo :: Dangling(c, AttachFolder(c, read, p, f).store, f.plate, photo)) <==>
      Keys(p.store.albums[f.plate].photos) * EntryKeys(c, read[f.plate], ToAttach(c, read[f.plate], f.entries)) != {}
  {
    var a, now := read[f.plate], p.store.albums[f.plate];
    var chosen := ToAttach(c, a, f.entries);
    var images, after := Placed(c, a, chosen), AttachFolder(c, read, p, f).store;
    PlacedKeys(c, a, chosen);
    hide ToAttach, Placed, AlreadyAttached;
    if key :| key in Keys(now.photos) * EntryKeys(c, a, chosen) {
      var e :| e in chosen && KeyOf(c, a, e) == key;
      var photo :| photo in now.photos && photo.key == key;
      assert !AppendMatches(c, now, images);
      assert Full(key) in Cleanup(c, a, chosen);
      assert Dangling(c, after, f.plate, photo);
    } else {
      forall photo | photo in after.albums[f.plate].photos ensures Full(photo.key) in after.objects {
        if photo in now.photos {
          assert !Dangling(c, p.store, f.plate, photo);
          assert photo.key in EntryKeys(c, a, chosen) ==> photo.key in Keys(now.photos) * EntryKeys(c, a, chosen);
        } else {
          assert photo in images && photo.key in EntryKeys(c, a, chosen);
        }
      }
    }
  }

  // Which is why attempts must not overlap: if two read the listings and then both come to a folder
  // with photos to attach, the second takes away the objects of every photo the first has attached.
  lemma OverlapLeavesDanglingPhotos(c: Config, s0: Store, p: Progress, f: Folder)
    requires p.store == s0 && f.plate in s0.albums && ToAttach(c, s0.albums[f.plate], f.entries) != []
    ensures
      var a := s0.albums[f.plate];
      var first := AttachFolder(c, s0.albums, p, f);
      var second := AttachFolder(c, s0.albums, first, f);
      && second.store.albums == s0.albums[f.plate := Final(c, a, f.entries)]
      && forall photo :: photo in Placed(c, a, ToAttach(c, a, f.entries)) ==>
           photo in second.store.albums[f.plate].photos && Full(photo.key) in first.store.objects &&
             Full(photo.key) !in second.store.objects
  {
    var a := s0.albums[f.plate];
    var chosen := ToAttach(c, a, f.entries);
    var images := Placed(c, a, chosen);
    var first := AttachFolder(c, s0.albums, p, f);
    FirstTime(c, a, f.entries);
    assert first.store.albums[f.plate].photos == a.photos + images;
    assert images[0] in images && images[0] in a.photos + images;
    assert images[0].key in Keys(first.store.albums[f.plate].photos) * Keys(images);
    RefusedAppendCleansUp(c, s0.albums, first, f);
    forall photo | photo in images
      ensures Full(photo.key) in PutKeys(c, a, chosen) && Full(photo.key) in Cleanup(c, a, chosen) {
      var k :| 0 <= k < |images| && images[k] == photo;
      assert chosen[k] in chosen;
    }
  }

  // Both conditions can fail. A repeated entry is attached twice ...
  lemma RepeatedEntryAttachedTwice(c: Config, id: nat, e: Entry)
    requires c.maximum >= 2
    ensures !DistinctKeys(Final(c, Album(id, []), [e, e]).photos)
  {
    var a := Album(id, []);
    RepeatedIsFresh(c, a, e);
    assert Final(c, a, [e, e]).photos[0].key == Final(c, a, [e, e]).photos[1].key;
  }

  // ... and when only one of the two fits, a second attempt counts two where the first counted one.
  lemma RepeatedEntryCountedTwice(c: Config, id: nat, e: Entry)
    requires c.maximum == 1
    ensures
      var a := Album(id, []);
      var again := Final(c, a, [e, e]);
      && AlreadyAttached(c, a, Keys(a.photos), [e, e]) + |ToAttach(c, a, [e, e])| == 1
      && AlreadyAttached(c, again, Keys(again.photos), [e, e]) == 2
  {
    var a := Album(id, []);
    var again := Final(c, a, [e, e]);
    RepeatedIsFresh(c, a, e);
    FreshPlusAlready(c, a, Keys(a.photos), [e, e]);
    var chosen := ToAttach(c, a, [e, e]);
    assert |chosen| == 1 && chosen[0] == e;
    PlacedKeys(c, a, chosen);
    NothingFresh(c, again, Keys(again.photos), [e, e]);
    FreshPlusAlready(c, again, Keys(again.photos), [e, e]);
  }

  lemma RepeatedIsFresh(c: Config, a: Album, e: Entry)
    requires a.photos == []
    ensures Fresh(c, a, Keys(a.photos), [e, e]) == [e, e]
  {
    assert [e, e][..1] == [e];
    assert Fresh(c, a, Keys(a.photos), [e]) == [e];
  }

  // Every folder is matched or unmatched.
  lemma {:induction false} FoldersAddUp(c: Config, albums: map<Plate, Album>, folders: seq<Folder>)
    ensures
      var r := CleanReport(c, albums, folders);
      && r.matchedListings + |r.unmatchedFolders| == |folders|
      && forall p :: p in r.unmatchedFolders <==>
        p !in albums && exists i :: 0 <= i < |folders| && folders[i].plate == p
    decreases |folders|
  {
    if folders != [] {
      var n := |folders| - 1;
      FoldersAddUp(c, albums, folders[..n]);
      assert folders == folders[..n] + [folders[n]];
    }
  }

  /* ----- The stage itself ----- */

  class PhotoStage {
    const c: Config
    var albums: map<Plate, Album>
    var objects: map<ObjectKey, Bytes>

    constructor (c: Config, s: Store)
      ensures this.c == c && albums == s.albums && objects == s.objects
    {
      this.c := c;
      albums := s.albums;
      objects := s.objects;
    }

    // Reads the upload's listings once, then goes through the folders.
    method ProcessInventoryImages(folders: seq<Folder>) returns (r: Report)
      modifies this
      ensures Progress(Store(albums, objects), r) == Attempt(c, Store(old(albums), old(objects)), folders)
      ensures DistinctPlates(folders) ==> r == CleanReport(c, old(albums), folders)
    {
      var read := albums;
      var imagesAttached: nat, matchedListings: nat := 0, 0;
      var unmatchedFolders := [];
      for n := 0 to |folders|
        invariant Progress(Store(albums, objects), Report(imagesAttached, matchedListings, unmatchedFolders)) ==
          AttachFolders(c, read, Store(old(albums), old(objects)), folders[..n])
      {
        var f := folders[n];
        assert folders[..n + 1][..n] == folders[..n];
        if f.plate !in read {
          unmatchedFolders := unmatchedFolders + [f.plate];
        } else {
          matchedListings := matchedListings + 1;
          var listing := read[f.plate];
          var toAttach := ToAttach(c, listing, f.entries);
          imagesAttached := imagesAttached + AlreadyAttached(c, listing, Keys(listing.photos), f.entries);
          if toAttach != [] {
            var images := Placed(c, listing, toAttach);
            objects := Upload(objects, PutKeys(c, listing, toAttach));
            if f.plate in albums && AppendMatches(c, albums[f.plate], images) {
              albums := albums[f.plate := albums[f.plate].(photos := albums[f.plate].photos + images)];
              imagesAttached := imagesAttached + |images|;
            } else {
              objects := objects - Cleanup(c, listing, toAttach);
            }
          }
        }
      }
      assert folders[..|folders|] == folders;
      if DistinctPlates(folders) {
        RetriesEqualOneCleanRun(c, Store(old(albums), old(objects)), folders, []);
      }
      r := Report(imagesAttached, matchedListings, unmatchedFolders);
    }
  }
}
