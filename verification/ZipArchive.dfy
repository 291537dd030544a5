/** Reading the photos out of a zip without trusting what the archive says about itself. */
module ZipArchive {
  import opened Options
  import opened ListingStore
  import opened ZipPhotos

  // One entry of the archive's directory. chunks: what its stream delivers. segments: its path, split
  // at both kinds of slash. imageName: its extension is an image's. plate: its folder's normalized
  // name. usable: its bytes are an image that decodes. thumb: a small copy can be made.
  datatype File = File(isFile: bool, segments: seq<string>, imageName: bool, plate: Plate, chunks: seq<seq<bv8>>,
      hash: nat, usable: bool, thumb: bool)

  datatype Limits = Limits(maxEntries: nat, maxImageBytes: nat, maxExpandedBytes: nat)

  datatype Extraction = Grouped(folders: seq<Folder>) | TooManyFiles | TooLarge | NoPhotos

  /* ----- One entry ----- */

  function Flatten(chunks: seq<seq<bv8>>): seq<bv8>
    decreases |chunks|
  {
    if chunks == [] then [] else Flatten(chunks[..|chunks| - 1]) + chunks[|chunks| - 1]
  }

  lemma {:induction false} FlattenGrows(chunks: seq<seq<bv8>>, n: nat)
    requires n <= |chunks|
    ensures |Flatten(chunks[..n])| <= |Flatten(chunks)|
    decreases |chunks|
  {
    if n == |chunks| {
      assert chunks[..n] == chunks;
    } else {
      FlattenGrows(chunks[..|chunks| - 1], n);
      assert chunks[..|chunks| - 1][..n] == chunks[..n];
    }
  }

  // The whole entry, or nothing when it is longer than the limit; never more than the limit is kept.
  method ReadEntryWithinLimit(chunks: seq<seq<bv8>>, limit: nat) returns (r: Option<seq<bv8>>)
    ensures r == if |Flatten(chunks)| <= limit then Some(Flatten(chunks)) else None
  {
    var kept, total := [], 0;
    for n := 0 to |chunks|
      invariant kept == Flatten(chunks[..n]) && total == |kept| <= limit
    {
      FlattenGrows(chunks, n + 1);
      assert chunks[..n + 1][..n] == chunks[..n];
      total := total + |chunks[n]|;
      if total > limit { return None; }
      kept := kept + chunks[n];
    }
    assert chunks[..|chunks|] == chunks;
    r := Some(kept);
  }

  /* ----- The archive ----- */

  predicate PhotoFile(f: File) {
    f.isFile && |f.segments| >= 2 && f.imageName
  }

  predicate Usable(f: File) {
    PhotoFile(f) && f.usable
  }

  function Size(f: File): nat {
    |Flatten(f.chunks)|
  }

  function Path(segments: seq<string>): string
    decreases |segments|
  {
    if segments == [] then ""
    else if |segments| == 1 then segments[0]
    else Path(segments[..|segments| - 1]) + "/" + segments[|segments| - 1]
  }

  function EntryOf(f: File): Entry
    requires Usable(f)
  {
    Entry(Path(f.segments), f.hash, f.segments[|f.segments| - 1], f.thumb)
  }

  function FileCount(files: seq<File>): nat
    decreases |files|
  {
    if files == [] then 0 else FileCount(files[..|files| - 1]) + if files[|files| - 1].isFile then 1 else 0
  }

  function PhotoCount(files: seq<File>): nat
    decreases |files|
  {
    if files == [] then 0 else PhotoCount(files[..|files| - 1]) + if PhotoFile(files[|files| - 1]) then 1 else 0
  }

  function Expanded(files: seq<File>): nat
    decreases |files|
  {
    if files == [] then 0
      else Expanded(files[..|files| - 1]) + if PhotoFile(files[|files| - 1]) then Size(files[|files| - 1]) else 0
  }

  // The usable photos of one folder, in the archive's order.
  function EntriesFor(files: seq<File>, plate: Plate): seq<Entry>
    decreases |files|
  {
    if files == [] then []
    else
      var f := files[|files| - 1];
      EntriesFor(files[..|files| - 1], plate) + if Usable(f) && f.plate == plate then [EntryOf(f)] else []
  }

  // The folders that hold usable photos, by their first one.
  function PlatesIn(files: seq<File>): (plates: seq<Plate>)
    ensures forall i, j :: 0 <= i < j < |plates| ==> plates[i] != plates[j]
    ensures forall p :: p in plates <==> exists f :: f in files && Usable(f) && f.plate == p
    decreases |files|
  {
    if files == [] then []
    else
      var f := files[|files| - 1];
      var before := PlatesIn(files[..|files| - 1]);
      assert files == files[..|files| - 1] + [f];
      if Usable(f) && f.plate !in before then before + [f.plate] else before
  }

  function Group(files: seq<File>): seq<Folder> {
    var plates := PlatesIn(files);
    seq(|plates|, i requires 0 <= i < |plates| => Folder(plates[i], EntriesFor(files, plates[i])))
  }

  function Plates(folders: seq<Folder>): seq<Plate> {
    seq(|folders|, i requires 0 <= i < |folders| => folders[i].plate)
  }

  // One photo pushed onto its folder's list.
  function AddTo(folders: seq<Folder>, plate: Plate, e: Entry): seq<Folder> {
    if plate in Plates(folders) then
      seq(|folders|, i requires 0 <= i < |folders| =>
        if folders[i].plate == plate then folders[i].(entries := folders[i].entries + [e]) else folders[i])
    else folders + [Folder(plate, [e])]
  }

  lemma {:induction false} NoEntriesElsewhere(files: seq<File>, plate: Plate)
    requires plate !in PlatesIn(files)
    ensures EntriesFor(files, plate) == []
    decreases |files|
  {
    if files != [] {
      var n := |files| - 1;
      assert files == files[..n] + [files[n]];
      assert plate !in PlatesIn(files[..n]);
      NoEntriesElsewhere(files[..n], plate);
    }
  }

  lemma SameGroup(files: seq<File>, f: File)
    requires !Usable(f)
    ensures Group(files + [f]) == Group(files)
  {
    assert (files + [f])[..|files|] == files;
    assert forall p :: EntriesFor(files + [f], p) == EntriesFor(files, p);
  }

  lemma LongerGroup(files: seq<File>, f: File)
    requires Usable(f) && f.plate in PlatesIn(files)
    ensures Group(files + [f]) == AddTo(Group(files), f.plate, EntryOf(f))
  {
    assert (files + [f])[..|files|] == files;
    assert Plates(Group(files)) == PlatesIn(files) == PlatesIn(files + [f]);
    var before, after := Group(files), Group(files + [f]);
    forall i | 0 <= i < |before|
      ensures after[i] == if before[i].plate == f.plate then before[i].(entries := before[i].entries + [EntryOf(f)])
        else before[i]
    {
      assert EntriesFor(files + [f], before[i].plate) ==
        before[i].entries + if f.plate == before[i].plate then [EntryOf(f)] else [];
    }
    assert |after| == |before|;
    assert after == AddTo(before, f.plate, EntryOf(f));
  }

  lemma EntriesStep(files: seq<File>, f: File, plate: Plate)
    ensures EntriesFor(files + [f], plate) ==
      EntriesFor(files, plate) + if Usable(f) && f.plate == plate then [EntryOf(f)] else []
  {
    assert (files + [f])[..|files|] == files;
  }

  lemma NewPlate(files: seq<File>, f: File)
    requires Usable(f) && f.plate !in PlatesIn(files)
    ensures PlatesIn(files + [f]) == PlatesIn(files) + [f.plate]
  {
    assert (files + [f])[..|files|] == files;
  }

  lemma NewGroup(files: seq<File>, f: File)
    requires Usable(f) && f.plate !in PlatesIn(files)
    ensures Group(files + [f]) == AddTo(Group(files), f.plate, EntryOf(f))
  {
    var plates := PlatesIn(files);
    assert Plates(Group(files)) == plates;
    NewPlate(files, f);
    NoEntriesElsewhere(files, f.plate);
    EntriesStep(files, f, f.plate);
    forall i | 0 <= i < |plates| ensures EntriesFor(files + [f], plates[i]) == EntriesFor(files, plates[i]) {
      assert plates[i] in plates;
      EntriesStep(files, f, plates[i]);
    }
    var before, after := Group(files), Group(files + [f]);
    assert |after| == |before| + 1;
    assert after[|before|] == Folder(f.plate, [EntryOf(f)]);
    forall i | 0 <= i < |before| ensures after[i] == before[i] {
      assert after[i] == Folder(plates[i], EntriesFor(files, plates[i]));
    }
  }

  lemma GroupStep(files: seq<File>, n: nat)
    requires n < |files|
    ensures Group(files[..n + 1]) ==
      if Usable(files[n]) then AddTo(Group(files[..n]), files[n].plate, EntryOf(files[n])) else Group(files[..n])
  {
    assert files[..n + 1] == files[..n] + [files[n]];
    if !Usable(files[n]) {
      SameGroup(files[..n], files[n]);
    } else if files[n].plate in PlatesIn(files[..n]) {
      LongerGroup(files[..n], files[n]);
    } else {
      NewGroup(files[..n], files[n]);
    }
  }

  // The archive is accepted exactly when it has a photo in a folder, not too many files, no photo
  // over its limit and not too many bytes in all; then every usable photo is in its folder's list
  // once, in the archive's order.
  method ExtractImageEntries(files: seq<File>, limits: Limits) returns (r: Extraction)
    ensures r.Grouped? <==>
      && FileCount(files) <= limits.maxEntries
      && (forall f :: f in files && PhotoFile(f) ==> Size(f) <= limits.maxImageBytes)
      && Expanded(files) <= limits.maxExpandedBytes
      && PhotoCount(files) > 0
    ensures r.Grouped? ==> r.folders == Group(files)
    ensures r.TooManyFiles? ==> FileCount(files) > limits.maxEntries
    ensures r.TooLarge? ==>
      || Expanded(files) > limits.maxExpandedBytes
      || exists f :: f in files && PhotoFile(f) && Size(f) > limits.maxImageBytes
    ensures r.NoPhotos? <==> FileCount(files) <= limits.maxEntries && PhotoCount(files) == 0
  {
    hide Flatten, AddTo, Path;
    var folders: seq<Folder> := [];
    var entryCount, expandedBytes, photoFiles := 0, 0, 0;
    for n := 0 to |files|
      invariant entryCount == FileCount(files[..n]) <= limits.maxEntries
      invariant expandedBytes == Expanded(files[..n]) <= limits.maxExpandedBytes
      invariant photoFiles == PhotoCount(files[..n])
      invariant forall f :: f in files[..n] && PhotoFile(f) ==> Size(f) <= limits.maxImageBytes
      invariant folders == Group(files[..n])
    {
      var f := files[n];
      TotalsStep(files, n);
      TotalsGrow(files, n + 1);
      GroupStep(files, n);
      if f.isFile {
        entryCount := entryCount + 1;
        if entryCount > limits.maxEntries { return TooManyFiles; }
        if |f.segments| >= 2 && f.imageName {
          photoFiles := photoFiles + 1;
          var remaining := limits.maxExpandedBytes - expandedBytes;
          var limit := if limits.maxImageBytes <= remaining then limits.maxImageBytes else remaining;
          var buffer := ReadEntryWithinLimit(f.chunks, limit);
          if buffer.None? { return TooLarge; }
          expandedBytes := expandedBytes + |buffer.value|;
          if f.usable {
            folders := AddTo(folders, f.plate, EntryOf(f));
          }
        }
      }
    }
    assert files[..|files|] == files;
    if photoFiles == 0 { return NoPhotos; }
    r := Grouped(folders);
  }

  lemma TotalsStep(files: seq<File>, n: nat)
    requires n < |files|
    ensures FileCount(files[..n + 1]) == FileCount(files[..n]) + if files[n].isFile then 1 else 0
    ensures PhotoCount(files[..n + 1]) == PhotoCount(files[..n]) + if PhotoFile(files[n]) then 1 else 0
    ensures Expanded(files[..n + 1]) == Expanded(files[..n]) + if PhotoFile(files[n]) then Size(files[n]) else 0
    ensures forall f :: f in files[..n + 1] <==> f in files[..n] || f == files[n]
  {
    assert files[..n + 1][..n] == files[..n];
    assert files[..n + 1] == files[..n] + [files[n]];
  }

  lemma {:induction false} TotalsGrow(files: seq<File>, n: nat)
    requires n <= |files|
    ensures FileCount(files[..n]) <= FileCount(files)
    ensures PhotoCount(files[..n]) <= PhotoCount(files)
    ensures Expanded(files[..n]) <= Expanded(files)
    decreases |files|
  {
    if n == |files| {
      assert files[..n] == files;
    } else {
      TotalsGrow(files[..|files| - 1], n);
      assert files[..|files| - 1][..n] == files[..n];
    }
  }

  // No two folders of the list have the same plate, whatever is in the archive.
  lemma GroupHasDistinctPlates(files: seq<File>)
    ensures DistinctPlates(Group(files))
  {
  }

  // Photos that differ in path or content make a list the attaching stage can retry safely.
  lemma GroupIsWellFormed(files: seq<File>)
    requires forall i, j :: 0 <= i < j < |files| && Usable(files[i]) && Usable(files[j]) ==>
      Path(files[i].segments) != Path(files[j].segments) || files[i].hash != files[j].hash
    ensures WellFormed(Group(files))
  {
    forall p ensures DistinctEntries(EntriesFor(files, p)) {
      EntriesAreDistinct(files, p);
    }
  }

  lemma {:induction false} EntriesAreDistinct(files: seq<File>, plate: Plate)
    requires forall i, j :: 0 <= i < j < |files| && Usable(files[i]) && Usable(files[j]) ==>
      Path(files[i].segments) != Path(files[j].segments) || files[i].hash != files[j].hash
    ensures DistinctEntries(EntriesFor(files, plate))
    ensures forall e :: e in EntriesFor(files, plate) ==>
      exists i :: 0 <= i < |files| && Usable(files[i]) && EntryOf(files[i]) == e
    decreases |files|
  {
    if files != [] {
      var n := |files| - 1;
      EntriesAreDistinct(files[..n], plate);
      var before := EntriesFor(files[..n], plate);
      forall e | e in before ensures exists i :: 0 <= i < n && Usable(files[i]) && EntryOf(files[i]) == e {
        var i :| 0 <= i < n && Usable(files[..n][i]) && EntryOf(files[..n][i]) == e;
        assert Usable(files[i]);
      }
      forall k | 0 <= k < |before| && Usable(files[n])
        ensures before[k].path != Path(files[n].segments) || before[k].hash != files[n].hash
      {
        assert before[k] in before;
      }
    }
  }
}
