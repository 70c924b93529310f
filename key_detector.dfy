/** Key estimation by rotated template correlation, and the renaming of a
    track to carry its tempo and key (AdvancedKeyDetector.py). The chroma
    vector and the tempo come from the feature extractor and are inputs here. */
module KeyDetector {
  import opened Text
  import opened Seqs
  import opened Wrappers
  import Reversal

  /** Expected chroma energy of a major key with tonic C. */
  const MajorProfile: seq<real> :=
    [6.35, 2.23, 3.48, 2.33, 4.38, 4.09, 2.52, 6.59, 5.19, 2.39, 3.66, 2.29]

  /** Expected chroma energy of a minor key with tonic C. */
  const MinorProfile: seq<real> :=
    [6.33, 2.68, 3.52, 5.38, 2.60, 3.53, 2.54, 4.75, 3.98, 2.69, 3.34, 3.17]

  /** Pitch-class names in semitone order from C. */
  const PitchClasses: seq<string> :=
    ["C", "C#", "D", "D#", "E", "F", "F#", "G", "G#", "A", "A#", "B"]

  datatype Mode = Major | Minor

  /** A key: the pitch class of its tonic (0 = C) and its mode. */
  datatype KeyLabel = KeyLabel(tonic: nat, mode: Mode)

  function Profile(mode: Mode): (p: seq<real>)
    ensures |p| == 12
  {
    match mode
    case Major => MajorProfile
    case Minor => MinorProfile
  }

  /** `np.roll(chroma, -shift)` on a 12-bin vector: the bin of pitch class
      `shift` moves to index 0 and every bin moves `shift` places to the
      left, circularly. */
  function Rotate(chroma: seq<real>, shift: nat): (r: seq<real>)
    requires |chroma| == 12 && shift < 12
    ensures |r| == 12
  {
    chroma[shift..] + chroma[..shift]
  }

  /** Bin `j` of the rolled vector is bin `j + shift` of the original,
      taken modulo 12. */
  lemma RotateAt(chroma: seq<real>, shift: nat, j: nat)
    requires |chroma| == 12 && shift < 12 && j < 12
    ensures Rotate(chroma, shift)[j] == chroma[(j + shift) % 12]
  {
  }

  /** `np.dot(a, b)` for two 12-bin vectors. */
  function Dot(a: seq<real>, b: seq<real>): real
    requires |a| == 12 && |b| == 12
  {
    a[0] * b[0] + a[1] * b[1] + a[2] * b[2] + a[3] * b[3] + a[4] * b[4] + a[5] * b[5] +
    a[6] * b[6] + a[7] * b[7] + a[8] * b[8] + a[9] * b[9] + a[10] * b[10] + a[11] * b[11]
  }

  /** The correlation of the chroma, rotated to test tonic `shift`, with the
      template of `mode`: the score of one of the 24 candidate keys. */
  function Score(chroma: seq<real>, shift: nat, mode: Mode): real
    requires |chroma| == 12 && shift < 12
  {
    Dot(Rotate(chroma, shift), Profile(mode))
  }

  /** The mode one shift settles on: major only when its score is strictly
      larger, so equal scores go to minor. */
  function ShiftMode(chroma: seq<real>, shift: nat): Mode
    requires |chroma| == 12 && shift < 12
  {
    if Score(chroma, shift, Major) > Score(chroma, shift, Minor) then Major else Minor
  }

  /** The key the search returns: the mode its shift settles on, a score no
      candidate among all 24 exceeds, and no earlier shift with a candidate
      as good (later shifts only win with a strictly larger score). */
  ghost predicate IsBestKey(chroma: seq<real>, key: KeyLabel)
    requires |chroma| == 12
  {
    && key.tonic < 12
    && key.mode == ShiftMode(chroma, key.tonic)
    && (forall s, m :: 0 <= s < 12 ==> Score(chroma, s, m) <= Score(chroma, key.tonic, key.mode))
    && (forall s, m :: 0 <= s < key.tonic ==> Score(chroma, s, m) < Score(chroma, key.tonic, key.mode))
  }

  /** The score of the mode one shift settles on: the larger of its two
      scores. */
  function ShiftScore(chroma: seq<real>, shift: nat): (r: real)
    requires |chroma| == 12 && shift < 12
    ensures r == Score(chroma, shift, ShiftMode(chroma, shift))
    ensures Score(chroma, shift, Major) <= r && Score(chroma, shift, Minor) <= r
  {
    if Score(chroma, shift, Major) > Score(chroma, shift, Minor) then Score(chroma, shift, Major)
    else Score(chroma, shift, Minor)
  }

  /** `estimate_key_advanced` after the chroma is computed: try all twelve
      rotations, let each settle on a mode, and keep the first strictly best
      score. The running best starts at minus infinity, which `bestKey ==
      None` stands for: the first candidate always beats it. */
  method EstimateKey(chroma: seq<real>) returns (key: KeyLabel)
    requires |chroma| == 12
    ensures key.tonic < 12
    ensures key.mode == Major <==> Score(chroma, key.tonic, Major) > Score(chroma, key.tonic, Minor)
    ensures forall s, m :: 0 <= s < 12 ==> Score(chroma, s, m) <= Score(chroma, key.tonic, key.mode)
    ensures forall s, m :: 0 <= s < key.tonic ==> Score(chroma, s, m) < Score(chroma, key.tonic, key.mode)
  {
    var bestScore: real := 0.0;
    var bestKey: Option<KeyLabel> := None;
    for shift := 0 to 12
      invariant bestKey.None? <==> shift == 0
      invariant bestKey.Some? ==> bestKey.value.tonic < shift
      invariant bestKey.Some? ==> bestKey.value.mode == ShiftMode(chroma, bestKey.value.tonic)
      invariant bestKey.Some? ==> bestScore == ShiftScore(chroma, bestKey.value.tonic)
      invariant forall s :: 0 <= s < shift ==> ShiftScore(chroma, s) <= bestScore
      invariant bestKey.Some? ==> forall s :: 0 <= s < bestKey.value.tonic ==> ShiftScore(chroma, s) < bestScore
    {
      var rotated := Rotate(chroma, shift);
      var majorScore := Dot(rotated, MajorProfile);
      var minorScore := Dot(rotated, MinorProfile);
      assert majorScore == Score(chroma, shift, Major) && minorScore == Score(chroma, shift, Minor);
      if majorScore > minorScore {
        if bestKey.None? || majorScore > bestScore {
          bestScore := majorScore;
          bestKey := Some(KeyLabel(shift, Major));
        }
      } else {
        if bestKey.None? || minorScore > bestScore {
          bestScore := minorScore;
          bestKey := Some(KeyLabel(shift, Minor));
        }
      }
    }
    key := bestKey.value;
    forall s, m | 0 <= s < 12
      ensures Score(chroma, s, m) <= Score(chroma, key.tonic, key.mode)
      ensures s < key.tonic ==> Score(chroma, s, m) < Score(chroma, key.tonic, key.mode)
    {
      assert Score(chroma, s, m) <= ShiftScore(chroma, s);
    }
  }

  /** The method's postconditions are exactly the predicate. */
  lemma EstimateKeySpec(chroma: seq<real>, key: KeyLabel)
    requires |chroma| == 12 && key.tonic < 12
    requires key.mode == Major <==> Score(chroma, key.tonic, Major) > Score(chroma, key.tonic, Minor)
    requires forall s, m :: 0 <= s < 12 ==> Score(chroma, s, m) <= Score(chroma, key.tonic, key.mode)
    requires forall s, m :: 0 <= s < key.tonic ==> Score(chroma, s, m) < Score(chroma, key.tonic, key.mode)
    ensures IsBestKey(chroma, key)
  {
  }

  /** At most one key meets the search's postcondition, so the search is
      deterministic, ties included. */
  lemma {:induction false} BestKeyUnique(chroma: seq<real>, k1: KeyLabel, k2: KeyLabel)
    requires |chroma| == 12
    requires IsBestKey(chroma, k1) && IsBestKey(chroma, k2)
    ensures k1 == k2
  {
    var a, b := Score(chroma, k1.tonic, k1.mode), Score(chroma, k2.tonic, k2.mode);
    assert a <= b && b <= a;
    assert k1.tonic == k2.tonic;
  }

  /** The label `f"{note_name} major"` / `f"{note_name} minor"`. */
  function KeyName(key: KeyLabel): string
    requires key.tonic < 12
  {
    PitchClasses[key.tonic] + ModeSuffix(key.mode)
  }

  function ModeSuffix(mode: Mode): string
  {
    match mode
    case Major => " major"
    case Minor => " minor"
  }

  /** A key label carries no underscore, dot or slash, so it never disturbs
      the splitting of a file name it is spliced into. */
  lemma KeyNameIsPlain(key: KeyLabel)
    requires key.tonic < 12
    ensures '_' !in KeyName(key) && '.' !in KeyName(key) && '/' !in KeyName(key)
  {
    var n := KeyName(key);
    forall i | 0 <= i < |n| ensures n[i] != '_' && n[i] != '.' && n[i] != '/' {
      if i < |PitchClasses[key.tonic]| {
        assert n[i] == PitchClasses[key.tonic][i];
      }
    }
  }

  /** Different keys get different labels. */
  lemma KeyNameInjective(k1: KeyLabel, k2: KeyLabel)
    requires k1.tonic < 12 && k2.tonic < 12
    requires KeyName(k1) == KeyName(k2)
    ensures k1 == k2
  {
    var n1, n2 := KeyName(k1), KeyName(k2);
    assert n1[|n1| - 6..] == ModeSuffix(k1.mode) && n2[|n2| - 6..] == ModeSuffix(k2.mode);
    assert ModeSuffix(k1.mode)[2] == ModeSuffix(k2.mode)[2];
    assert n1[..|n1| - 6] == PitchClasses[k1.tonic];
    assert n2[..|n2| - 6] == PitchClasses[k2.tonic];
  }

  /** The extensions `label_files_with_key_bpm` processes. */
  const KeyInputExtensions: seq<string> := [".mp3", ".wav"]

  /** Whether a directory entry is processed: its lower-cased name ends in
      `.mp3` or `.wav`. */
  predicate IsKeyInput(name: string)
  {
    EndsWithAny(Lower(name), KeyInputExtensions)
  }

  /** The new file name: split the root at its last underscore and splice
      `<bpm>BPM_<key>` in between, or append it when there is no underscore;
      the extension is kept. */
  function RenamedWithKeyBpm(name: string, bpm: nat, key: KeyLabel): string
    requires key.tonic < 12
  {
    var (base, ext) := SplitExt(name);
    var tag := NatToString(bpm) + "BPM_" + KeyName(key);
    var newBase :=
      match RSplitOnce(base, '_')
      case Some((stem, instrument)) => stem + "_" + tag + "_" + instrument
      case None => base + "_" + tag;
    newBase + ext
  }

  /** With an underscore in the root, the tag goes between the part before
      the last underscore and the instrument after it. */
  lemma RenameWithInstrument(name: string, bpm: nat, key: KeyLabel, stem: string, instrument: string)
    requires key.tonic < 12
    requires SplitExt(name).0 == stem + "_" + instrument && '_' !in instrument
    ensures RenamedWithKeyBpm(name, bpm, key)
         == stem + "_" + NatToString(bpm) + "BPM_" + KeyName(key) + "_" + instrument + SplitExt(name).1
  {
    RSplitOnceOf(stem, '_', instrument);
  }

  /** Without an underscore in the root, the tag is appended to it. */
  lemma RenameWithoutUnderscore(name: string, bpm: nat, key: KeyLabel)
    requires key.tonic < 12
    requires '_' !in SplitExt(name).0
    ensures RenamedWithKeyBpm(name, bpm, key)
         == SplitExt(name).0 + "_" + NatToString(bpm) + "BPM_" + KeyName(key) + SplitExt(name).1
  {
  }

  /** The renamed file keeps the original extension: splitting the new name
      gives back the old extension. */
  lemma {:induction false} RenameKeepsExtension(name: string, bpm: nat, key: KeyLabel)
    requires key.tonic < 12
    requires '.' in name
    ensures SplitExt(RenamedWithKeyBpm(name, bpm, key)).1 == SplitExt(name).1
  {
    var (base, ext) := SplitExt(name);
    var r := RenamedWithKeyBpm(name, bpm, key);
    assert r == r[..|r| - |ext|] + ext;
    SplitExtOf(r[..|r| - |ext|], ext);
  }

  /** A labelled stem file still parses into its song and instrument: the
      base `parse_filename` finds is the old base with the tempo and key
      appended, and the instrument is unchanged. */
  lemma LabelRoundTrip(name: string, bpm: nat, key: KeyLabel, stem: string, instrument: string)
    requires key.tonic < 12 && '.' in name
    requires SplitExt(name).0 == stem + "_" + instrument && '_' !in instrument
    ensures Reversal.ParseFilename(RenamedWithKeyBpm(name, bpm, key))
         == (stem + "_" + NatToString(bpm) + "BPM_" + KeyName(key), Lower(instrument))
  {
    var ext := SplitExt(name).1;
    var left := stem + "_" + NatToString(bpm) + "BPM_" + KeyName(key);
    RenameWithInstrument(name, bpm, key, stem, instrument);
    assert RenamedWithKeyBpm(name, bpm, key) == (left + "_" + instrument) + ext;
    SplitExtOf(left + "_" + instrument, ext);
    assert left + "_" + instrument == left + ['_'] + instrument;
    RSplitOnceOf(left, '_', instrument);
  }

  /** What the feature extractor reports for one file: its rounded tempo
      and its time-averaged chroma. */
  datatype Analysis = Analysis(bpm: nat, chroma: seq<real>)

  /** One `os.rename` the labelling performs. */
  datatype Rename = Rename(oldName: string, newName: string, key: KeyLabel)

  /** One rename is right for the analysis of its file: the key is the
      best-scoring one and the new name carries that key and the tempo. */
  ghost predicate Labelled(r: Rename, a: Analysis)
  {
    && |a.chroma| == 12
    && r.key.tonic < 12
    && IsBestKey(a.chroma, r.key)
    && r.newName == RenamedWithKeyBpm(r.oldName, a.bpm, r.key)
  }

  /** `label_files_with_key_bpm`: keep the `.mp3`/`.wav` entries of the
      listing, estimate each one's key from its analysis and rename it.
      An empty selection renames nothing. */
  method LabelFilesWithKeyBpm(listing: seq<string>, analyse: string -> Analysis) returns (renames: seq<Rename>)
    requires forall f :: |analyse(f).chroma| == 12
    ensures |renames| == |Filter(listing, IsKeyInput)|
    ensures forall i :: 0 <= i < |renames| ==> renames[i].oldName == Filter(listing, IsKeyInput)[i]
    ensures forall i :: 0 <= i < |renames| ==> Labelled(renames[i], analyse(renames[i].oldName))
  {
    renames := LabelEach(Filter(listing, IsKeyInput), analyse);
  }

  /** The labelling loop over the selected files, in listing order. */
  method LabelEach(files: seq<string>, analyse: string -> Analysis) returns (renames: seq<Rename>)
    requires forall f :: |analyse(f).chroma| == 12
    ensures |renames| == |files|
    ensures forall i :: 0 <= i < |renames| ==> renames[i].oldName == files[i]
    ensures forall i :: 0 <= i < |renames| ==> Labelled(renames[i], analyse(renames[i].oldName))
  {
    var keys := EstimateKeys(files, analyse);
    renames := seq(|files|, i requires 0 <= i < |files| =>
      Rename(files[i], RenamedWithKeyBpm(files[i], analyse(files[i]).bpm, keys[i]), keys[i]));
  }

  /** `keys` holds, for each of the first `|keys|` files, the key that
      scores best on that file's chroma. */
  ghost predicate KeysFit(files: seq<string>, keys: seq<KeyLabel>, analyse: string -> Analysis)
  {
    && |keys| <= |files|
    && forall k :: 0 <= k < |keys| ==> k < |files| && |analyse(files[k]).chroma| == 12 && IsBestKey(analyse(files[k]).chroma, keys[k])
  }

  /** Estimating the next file's key extends the fit by one. */
  lemma KeysFitSnoc(files: seq<string>, keys: seq<KeyLabel>, key: KeyLabel, analyse: string -> Analysis)
    requires KeysFit(files, keys, analyse) && |keys| < |files|
    requires |analyse(files[|keys|]).chroma| == 12 && IsBestKey(analyse(files[|keys|]).chroma, key)
    ensures KeysFit(files, keys + [key], analyse)
  {
    AllSnoc(keys, key, (k: nat, kk: KeyLabel) =>
      k < |files| && |analyse(files[k]).chroma| == 12 && IsBestKey(analyse(files[k]).chroma, kk));
  }

  method EstimateKeys(files: seq<string>, analyse: string -> Analysis) returns (keys: seq<KeyLabel>)
    requires forall f :: |analyse(f).chroma| == 12
    ensures |keys| == |files| && KeysFit(files, keys, analyse)
  {
    keys := [];
    for i := 0 to |files|
      invariant |keys| == i && KeysFit(files, keys, analyse)
    {
      var key := EstimateKey(analyse(files[i]).chroma);
      EstimateKeySpec(analyse(files[i]).chroma, key);
      KeysFitSnoc(files, keys, key, analyse);
      keys := keys + [key];
    }
  }
}
