/** `process_reversal` and `parse_filename` of Reverser.py: the `.wav` stems
    of a folder are grouped by song under the naming convention
    `<base>_<instrument>.wav`, and for each song the bass, vocals and other
    stems that exist are combined into `<base>_BassVocalsOther.wav`, which is
    then written reversed as `<base>_BassVocalsOther_reversed.wav`. */
module Reversal {
  import opened Wrappers
  import opened Seqs
  import opened Text
  import opened StemMixer

  /** `parse_filename`: the extension is dropped, and the rest is split at
      its last underscore into the song's base name and the lower-cased
      instrument; a name without an underscore is a base of instrument
      "unknown". */
  function ParseFilename(filename: string): (string, string)
  {
    var root := SplitExt(filename).0;
    match RSplitOnce(root, '_')
    case None => (root, "unknown")
    case Some(parts) => (parts.0, Lower(parts.1))
  }

  /** The base is the text before the last underscore of the extensionless
      name, the instrument the lower-cased text after it, which holds no
      underscore; without an underscore the whole name is the base. */
  lemma ParseFilenameParts(filename: string)
    ensures '_' !in ParseFilename(filename).1
    ensures var root := SplitExt(filename).0;
      '_' !in root ==> ParseFilename(filename) == (root, "unknown")
    ensures var root, r := SplitExt(filename).0, ParseFilename(filename);
      '_' in root ==>
        && |r.0| < |root|
        && root[..|r.0|] == r.0
        && root[|r.0|] == '_'
        && '_' !in root[|r.0| + 1..]
        && r.1 == Lower(root[|r.0| + 1..])
  {
    var root := SplitExt(filename).0;
    if '_' in root {
      var parts := RSplitOnce(root, '_').value;
      assert root == parts.0 + ['_'] + parts.1;
      assert root[..|parts.0|] == parts.0;
      assert root[|parts.0| + 1..] == parts.1;
      LowerKeepsPunctuation(parts.1, '_');
    }
  }

  /** A stem file named `<base>_<instrument>.wav`, with no underscore in the
      instrument, parses back into the base and the lower-cased instrument. */
  lemma ParseStemFileName(base: string, instrument: string)
    requires '_' !in instrument
    ensures ParseFilename(base + "_" + instrument + ".wav") == (base, Lower(instrument))
  {
    var root := base + "_" + instrument;
    assert base + "_" + instrument + ".wav" == root + ".wav";
    SplitExtOf(root, ".wav");
    assert root == base + ['_'] + instrument;
    RSplitOnceOf(base, '_', instrument);
  }

  /** `filename.lower().endswith(".wav")`. */
  predicate IsWav(filename: string)
  {
    EndsWith(Lower(filename), ".wav")
  }

  /** Where the collecting loop files a directory entry: under its song and
      instrument when it is a `.wav` file, nowhere otherwise. */
  function StemKey(filename: string): Option<(string, string)>
  {
    if IsWav(filename) then Some(ParseFilename(filename)) else None
  }

  /** `stems_dict` after the collecting loop over `listing`, each entry
      being filed by `key`: for every base name, each instrument's full
      path. */
  function Grouped(listing: seq<string>, folder: string, key: string -> Option<(string, string)>)
    : map<string, map<string, string>>
  {
    if listing == [] then map[]
    else
      var groups := Grouped(listing[..|listing| - 1], folder, key);
      var filename := listing[|listing| - 1];
      match key(filename)
      case None => groups
      case Some(parsed) =>
        var instruments := if parsed.0 in groups then groups[parsed.0] else map[];
        groups[parsed.0 := instruments[parsed.1 := PathJoin(folder, filename)]]
  }

  /** The base names of `stems_dict` in the order the dictionary iterates
      them: the order in which each was first inserted. */
  function BaseOrder(listing: seq<string>, key: string -> Option<(string, string)>): seq<string>
  {
    if listing == [] then []
    else
      var order := BaseOrder(listing[..|listing| - 1], key);
      match key(listing[|listing| - 1])
      case None => order
      case Some(parsed) => if parsed.0 in order then order else order + [parsed.0]
  }

  /** The position of the last entry of `listing` that `key` files as stem
      `instrument` of song `base`. */
  function LastStemFile(listing: seq<string>, key: string -> Option<(string, string)>,
                        base: string, instrument: string): (r: Option<nat>)
    ensures r.None? ==> forall j :: 0 <= j < |listing| ==> key(listing[j]) != Some((base, instrument))
    ensures r.Some? ==>
      && r.value < |listing|
      && key(listing[r.value]) == Some((base, instrument))
      && forall j :: r.value < j < |listing| ==> key(listing[j]) != Some((base, instrument))
  {
    if listing == [] then None
    else
      var init := listing[..|listing| - 1];
      assert forall j :: 0 <= j < |init| ==> init[j] == listing[j];
      if key(listing[|listing| - 1]) == Some((base, instrument)) then Some(|listing| - 1)
      else LastStemFile(init, key, base, instrument)
  }

  /** A song has a stem for an instrument exactly when some entry of the
      listing is filed under it, and the path kept is that of the last such
      entry: a later file overwrites an earlier one. */
  lemma {:induction false} GroupedStems(listing: seq<string>, folder: string, key: string -> Option<(string, string)>,
                                        base: string, instrument: string)
    ensures var groups := Grouped(listing, folder, key);
      (base in groups && instrument in groups[base]) <==> LastStemFile(listing, key, base, instrument).Some?
    ensures var groups := Grouped(listing, folder, key);
      base in groups && instrument in groups[base] ==>
        groups[base][instrument] == PathJoin(folder, listing[LastStemFile(listing, key, base, instrument).value])
  {
    if listing != [] {
      GroupedStems(listing[..|listing| - 1], folder, key, base, instrument);
    }
  }

  /** The songs are visited once each, and they are exactly the bases of
      the grouped stems. */
  lemma {:induction false} BaseOrderKeys(listing: seq<string>, folder: string, key: string -> Option<(string, string)>)
    ensures NoDuplicates(BaseOrder(listing, key))
    ensures forall b :: b in BaseOrder(listing, key) <==> b in Grouped(listing, folder, key)
  {
    if listing != [] {
      BaseOrderKeys(listing[..|listing| - 1], folder, key);
    }
  }

  /** One more entry of the listing, filed by `key`. */
  lemma GroupedSnoc(listing: seq<string>, k: nat, folder: string, key: string -> Option<(string, string)>)
    requires k < |listing|
    ensures key(listing[k]).None? ==>
      && Grouped(listing[..k + 1], folder, key) == Grouped(listing[..k], folder, key)
      && BaseOrder(listing[..k + 1], key) == BaseOrder(listing[..k], key)
    ensures key(listing[k]).Some? ==>
      var parsed, groups := key(listing[k]).value, Grouped(listing[..k], folder, key);
      var instruments := if parsed.0 in groups then groups[parsed.0] else map[];
      && Grouped(listing[..k + 1], folder, key) == groups[parsed.0 := instruments[parsed.1 := PathJoin(folder, listing[k])]]
      && BaseOrder(listing[..k + 1], key)
         == if parsed.0 in groups then BaseOrder(listing[..k], key) else BaseOrder(listing[..k], key) + [parsed.0]
  {
    assert listing[..k + 1][..k] == listing[..k];
    BaseOrderKeys(listing[..k], folder, key);
  }

  /** `stems_dict[base_name][instrument] = full_path`, creating the song's
      entry, last in iteration order, when it is new. */
  method FileStem(stemsDict: map<string, map<string, string>>, order: seq<string>,
                  baseName: string, instrument: string, fullPath: string)
    returns (stemsDict': map<string, map<string, string>>, order': seq<string>)
    ensures var instruments := if baseName in stemsDict then stemsDict[baseName] else map[];
      stemsDict' == stemsDict[baseName := instruments[instrument := fullPath]]
    ensures order' == if baseName in stemsDict then order else order + [baseName]
  {
    stemsDict', order' := stemsDict, order;
    if baseName !in stemsDict' {
      stemsDict' := stemsDict'[baseName := map[]];
      order' := order' + [baseName];
    }
    stemsDict' := stemsDict'[baseName := stemsDict'[baseName][instrument := fullPath]];
  }

  /** The collecting loop of `process_reversal` over the folder listing
      (`os.listdir`, in the order it returns). The dictionary's iteration
      order is returned beside it. */
  method GroupStems(listing: seq<string>, folder: string)
    returns (stemsDict: map<string, map<string, string>>, order: seq<string>)
    ensures stemsDict == Grouped(listing, folder, StemKey)
    ensures order == BaseOrder(listing, StemKey)
  {
    stemsDict := map[];
    order := [];
    for k := 0 to |listing|
      invariant stemsDict == Grouped(listing[..k], folder, StemKey)
      invariant order == BaseOrder(listing[..k], StemKey)
    {
      var filename := listing[k];
      GroupedSnoc(listing, k, folder, StemKey);
      if !IsWav(filename) {
        continue;
      }
      var fullPath := PathJoin(folder, filename);
      var parsed := ParseFilename(filename);
      stemsDict, order := FileStem(stemsDict, order, parsed.0, parsed.1, fullPath);
    }
    assert listing[..|listing|] == listing;
  }

  /** `needed = ["bass", "vocals", "other"]`. */
  const Needed: seq<string> := ["bass", "vocals", "other"]

  /** The paths of the instruments of `needed` that `instruments` has, in
      the order of `needed`. */
  function ExistingAmong(needed: seq<string>, instruments: map<string, string>): seq<string>
  {
    if needed == [] then []
    else
      var last := needed[|needed| - 1];
      ExistingAmong(needed[..|needed| - 1], instruments)
      + (if last in instruments then [instruments[last]] else [])
  }

  /** The paths combined for a song are the bass, vocals and other paths
      it has, in this order; with none of the three it has nothing. */
  lemma ExistingInOrder(instruments: map<string, string>)
    ensures ExistingAmong(Needed, instruments)
         == (if "bass" in instruments then [instruments["bass"]] else [])
          + (if "vocals" in instruments then [instruments["vocals"]] else [])
          + (if "other" in instruments then [instruments["other"]] else [])
    ensures ExistingAmong(Needed, instruments) == []
        <==> "bass" !in instruments && "vocals" !in instruments && "other" !in instruments
  {
    var one, two := Needed[..1], Needed[..2];
    assert one == ["bass"] && one[..0] == [] && two == ["bass", "vocals"] && two[..1] == one;
    assert Needed[..2] == two;
    assert ExistingAmong(one, instruments) == (if "bass" in instruments then [instruments["bass"]] else []);
    assert ExistingAmong(two, instruments) == ExistingAmong(one, instruments)
      + (if "vocals" in instruments then [instruments["vocals"]] else []);
  }

  /** The loop gathering `existing_paths` for one song. */
  method CollectExisting(instrumentsMap: map<string, string>) returns (existingPaths: seq<string>)
    ensures existingPaths == ExistingAmong(Needed, instrumentsMap)
  {
    existingPaths := [];
    for k := 0 to |Needed|
      invariant existingPaths == ExistingAmong(Needed[..k], instrumentsMap)
    {
      var neededInstrument := Needed[k];
      assert Needed[..k + 1][..k] == Needed[..k];
      if neededInstrument in instrumentsMap {
        existingPaths := existingPaths + [instrumentsMap[neededInstrument]];
      }
    }
    assert Needed[..|Needed|] == Needed;
  }

  /** `f"{base_name}_BassVocalsOther.wav"`. */
  function CombinedName(base: string): string
  {
    base + "_BassVocalsOther.wav"
  }

  /** `f"{base_name}_BassVocalsOther_reversed.wav"`. */
  function ReversedName(base: string): string
  {
    base + "_BassVocalsOther_reversed.wav"
  }

  /** Different songs get different output names, and a combined file
      never has the name of a reversed one. */
  lemma OutputNamesDistinct(a: string, b: string)
    ensures CombinedName(a) == CombinedName(b) ==> a == b
    ensures ReversedName(a) == ReversedName(b) ==> a == b
    ensures CombinedName(a) != ReversedName(b)
  {
    if CombinedName(a) == CombinedName(b) {
      assert a == CombinedName(a)[..|a|] && b == CombinedName(b)[..|b|];
    }
    if ReversedName(a) == ReversedName(b) {
      assert a == ReversedName(a)[..|a|] && b == ReversedName(b)[..|b|];
    }
    var c, r := CombinedName(a), ReversedName(b);
    if |c| == |r| {
      assert c[|c| - 5] == 'r' && r[|r| - 5] == 'd';
    }
  }

  /** The decoded stems read from `paths`, in order. */
  function ReadAll(paths: seq<string>, read: string -> AudioFile): (r: seq<AudioFile>)
    ensures |r| == |paths|
    ensures forall i :: 0 <= i < |paths| ==> r[i] == read(paths[i])
  {
    seq(|paths|, i requires 0 <= i < |paths| => read(paths[i]))
  }

  /** What `process_reversal` does for one song. */
  datatype SongStep = Skipped | RateError(stemPath: string) | Wrote(combined: WavWrite, reversed: WavWrite)

  /** The outcome of `process_reversal`: every write it performs, and the
      stem named in the `ValueError` that ended it early, if any. */
  datatype ReversalRun = Completed(writes: seq<WavWrite>) | Failed(writes: seq<WavWrite>, stemPath: string)

  /** The step for song `base` with stems `instruments`: skipped with none
      of the three instruments, failed on a stem whose rate differs from the
      first one's, and otherwise the combined file and its reversal. */
  function SongStepOf(base: string, instruments: map<string, string>, folder: string,
                      read: string -> AudioFile): (r: SongStep)
    ensures r.Skipped? <==> ExistingAmong(Needed, instruments) == []
    ensures r.RateError? ==> r.stemPath in ExistingAmong(Needed, instruments)
    ensures r.RateError? <==>
      ExistingAmong(Needed, instruments) != [] && !SameRate(ReadAll(ExistingAmong(Needed, instruments), read))
    ensures r.Wrote? ==>
      && r.combined.path == PathJoin(folder, CombinedName(base))
      && r.reversed.path == PathJoin(folder, ReversedName(base))
      && r.reversed.audio.rate == r.combined.audio.rate
      && r.reversed.audio.samples == Reversed(r.combined.audio.samples)
      && Combine(ReadAll(ExistingAmong(Needed, instruments), read)) == Combined(r.combined.audio)
  {
    var paths := ExistingAmong(Needed, instruments);
    if paths == [] then Skipped
    else
      var combinedPath := PathJoin(folder, CombinedName(base));
      match Combine(ReadAll(paths, read))
      case RateMismatch(j) => RateError(paths[j])
      case Combined(audio) =>
        Wrote(WavWrite(combinedPath, audio),
              ReverseWavFile(combinedPath, Some(PathJoin(folder, ReversedName(base))), audio))
  }

  /** The run over songs `bases`, in order, stopping at the first failure. */
  function RunOver(bases: seq<string>, groups: map<string, map<string, string>>, folder: string,
                   read: string -> AudioFile): ReversalRun
  {
    if bases == [] then Completed([])
    else
      var base := bases[|bases| - 1];
      match RunOver(bases[..|bases| - 1], groups, folder, read)
      case Failed(writes, path) => Failed(writes, path)
      case Completed(writes) =>
        match SongStepOf(base, if base in groups then groups[base] else map[], folder, read)
        case Skipped => Completed(writes)
        case RateError(path) => Failed(writes, path)
        case Wrote(c, rv) => Completed(writes + [c, rv])
  }

  /** The `ValueError` ends the run: once the songs so far have failed, no
      later song adds a write or changes the error. */
  lemma {:induction false} FailureIsFinal(bases: seq<string>, n: nat, groups: map<string, map<string, string>>,
                                          folder: string, read: string -> AudioFile)
    requires n <= |bases| && RunOver(bases[..n], groups, folder, read).Failed?
    ensures RunOver(bases, groups, folder, read) == RunOver(bases[..n], groups, folder, read)
  {
    if n < |bases| {
      var init := bases[..|bases| - 1];
      assert init[..n] == bases[..n];
      FailureIsFinal(init, n, groups, folder, read);
    } else {
      assert bases[..n] == bases;
    }
  }

  /** The body of the song loop of `process_reversal` for one song: gather
      the existing bass, vocals and other stems, combine them, and reverse
      the combined file. */
  method ReverseSong(baseName: string, instrumentsMap: map<string, string>, splitFolder: string,
                     read: string -> AudioFile) returns (step: SongStep)
    ensures step == SongStepOf(baseName, instrumentsMap, splitFolder, read)
  {
    var existingPaths := CollectExisting(instrumentsMap);
    if |existingPaths| < 1 {
      return Skipped;
    }
    var combinedPath := PathJoin(splitFolder, CombinedName(baseName));
    var combination := CombineStems(ReadAll(existingPaths, read));
    if combination.RateMismatch? {
      return RateError(existingPaths[combination.index]);
    }
    var reversedPath := PathJoin(splitFolder, ReversedName(baseName));
    var reversed := ReverseWavFile(combinedPath, Some(reversedPath), combination.audio);
    return Wrote(WavWrite(combinedPath, combination.audio), reversed);
  }

  /** `process_reversal(split_folder)`, given the folder listing and the
      decoded content of each stem file. */
  method ProcessReversal(listing: seq<string>, splitFolder: string, read: string -> AudioFile)
    returns (run: ReversalRun)
    ensures run == RunOver(BaseOrder(listing, StemKey), Grouped(listing, splitFolder, StemKey), splitFolder, read)
  {
    var stemsDict, order := GroupStems(listing, splitFolder);
    BaseOrderKeys(listing, splitFolder, StemKey);
    run := ReverseSongs(order, stemsDict, splitFolder, read);
  }

  /** The song loop of `process_reversal`, over the songs in dictionary
      order. */
  method ReverseSongs(order: seq<string>, stemsDict: map<string, map<string, string>>, splitFolder: string,
                      read: string -> AudioFile) returns (run: ReversalRun)
    requires forall b :: b in order ==> b in stemsDict
    ensures run == RunOver(order, stemsDict, splitFolder, read)
  {
    var writes := [];
    for k := 0 to |order|
      invariant RunOver(order[..k], stemsDict, splitFolder, read) == Completed(writes)
    {
      var baseName := order[k];
      assert order[..k + 1][..k] == order[..k] && order[..k + 1][k] == baseName;
      var step := ReverseSong(baseName, stemsDict[baseName], splitFolder, read);
      match step
      case Skipped =>
      case RateError(path) =>
        FailureIsFinal(order, k + 1, stemsDict, splitFolder, read);
        return Failed(writes, path);
      case Wrote(combined, reversed) =>
        writes := writes + [combined, reversed];
    }
    assert order[..|order|] == order;
    return Completed(writes);
  }
}
