/** `remove_silent_audio_recursively` of CleanSilent.py: every audio file met
    by the walk of a folder tree is read, and deleted when even its loudest
    sample stays below the silence threshold. */
module CleanSilent {
  import opened Wrappers
  import opened Seqs
  import opened Text

  /** `valid_exts`. */
  const ValidExtensions: seq<string> := [".wav", ".mp3", ".flac", ".ogg", ".m4a"]

  /** `filename.lower().endswith(valid_exts)`. */
  predicate IsAudioFile(filename: string)
  {
    EndsWithAny(Lower(filename), ValidExtensions)
  }

  /** The data `sf.read` returns: one sample per frame, or one row of
      channel samples per frame. */
  datatype SoundData = Mono(samples: seq<real>) | MultiChannel(frames: seq<seq<real>>)

  /** `np.ndarray.flatten`: the rows laid end to end. */
  function Flatten(rows: seq<seq<real>>): (r: seq<real>)
    ensures |rows| > 0 ==> |r| >= |rows[|rows| - 1]|
  {
    if rows == [] then [] else Flatten(rows[..|rows| - 1]) + rows[|rows| - 1]
  }

  /** Every sample of every row, and nothing else, is in the flattened
      data. */
  lemma {:induction false} FlattenHolds(rows: seq<seq<real>>, x: real)
    ensures x in Flatten(rows) <==> exists k :: 0 <= k < |rows| && x in rows[k]
  {
    if rows != [] {
      var init := rows[..|rows| - 1];
      FlattenHolds(init, x);
      if x in Flatten(rows) && x !in rows[|rows| - 1] {
        var k :| 0 <= k < |init| && x in init[k];
        assert rows[k] == init[k];
      }
      if exists k :: 0 <= k < |rows| && x in rows[k] {
        var k :| 0 <= k < |rows| && x in rows[k];
        if k < |init| {
          assert init[k] == rows[k];
        }
      }
    }
  }

  /** The samples the amplitude is measured over, flattened when the file
      has several channels. */
  function Samples(data: SoundData): seq<real>
  {
    match data
    case Mono(samples) => samples
    case MultiChannel(frames) => Flatten(frames)
  }

  function Abs(x: real): real
  {
    if x < 0.0 then -x else x
  }

  /** `np.max(np.abs(data))`, None where numpy raises on empty data. */
  function MaxAbs(xs: seq<real>): (r: Option<real>)
    ensures r.None? <==> xs == []
    ensures r.Some? ==> forall i :: 0 <= i < |xs| ==> Abs(xs[i]) <= r.value
    ensures r.Some? ==> exists i :: 0 <= i < |xs| && Abs(xs[i]) == r.value
  {
    if xs == [] then None
    else
      var init := xs[..|xs| - 1];
      var last := Abs(xs[|xs| - 1]);
      assert forall i :: 0 <= i < |init| ==> init[i] == xs[i];
      match MaxAbs(init)
      case None => Some(last)
      case Some(m) => Some(if last > m then last else m)
  }

  /** The deletion rule: a readable file goes when its largest absolute
      sample is strictly below the threshold. An unreadable file, or one
      without samples, raises inside the `try` and is kept. */
  predicate IsSilent(read: Option<SoundData>, threshold: real)
  {
    read.Some? && match MaxAbs(Samples(read.value))
      case None => false
      case Some(m) => m < threshold
  }

  /** A file is removed exactly when it was read, has samples, and every
      one of them is strictly quieter than the threshold. */
  lemma IsSilentMeans(read: Option<SoundData>, threshold: real)
    ensures IsSilent(read, threshold) <==>
      && read.Some?
      && |Samples(read.value)| > 0
      && forall i :: 0 <= i < |Samples(read.value)| ==> Abs(Samples(read.value)[i]) < threshold
  {
    if read.Some? && |Samples(read.value)| > 0 {
      var xs := Samples(read.value);
      var i :| 0 <= i < |xs| && Abs(xs[i]) == MaxAbs(xs).value;
    }
  }

  /** A file whose loudest sample is exactly at the threshold is kept. */
  lemma AtThresholdKept(samples: seq<real>, threshold: real)
    requires MaxAbs(samples) == Some(threshold)
    ensures !IsSilent(Some(Mono(samples)), threshold)
  {
  }

  /** The deletion rule for a path, given what reading each path gives. */
  function SilentUnder(read: string -> Option<SoundData>, threshold: real): string -> bool
  {
    (p: string) => IsSilent(read(p), threshold)
  }

  /** The files of the walk whose name passes `isAudio`, as
      `os.path.join(current_path, filename)`, in walk order. The walk is
      given as its (folder, file name) entries. */
  function AudioPaths(walk: seq<(string, string)>, isAudio: string -> bool): (r: seq<string>)
    ensures |r| <= |walk|
  {
    if walk == [] then []
    else
      var entry := walk[|walk| - 1];
      AudioPaths(walk[..|walk| - 1], isAudio)
      + (if isAudio(entry.1) then [PathJoin(entry.0, entry.1)] else [])
  }

  /** The paths examined are exactly the joined paths of the walk's entries
      whose lower-cased name has an audio extension. */
  lemma {:induction false} AudioPathsSelect(walk: seq<(string, string)>, isAudio: string -> bool, p: string)
    ensures p in AudioPaths(walk, isAudio)
        <==> exists k :: 0 <= k < |walk| && isAudio(walk[k].1) && p == PathJoin(walk[k].0, walk[k].1)
  {
    if walk != [] {
      var init := walk[..|walk| - 1];
      AudioPathsSelect(init, isAudio, p);
      if exists k :: 0 <= k < |walk| && isAudio(walk[k].1) && p == PathJoin(walk[k].0, walk[k].1) {
        var k :| 0 <= k < |walk| && isAudio(walk[k].1) && p == PathJoin(walk[k].0, walk[k].1);
        if k < |init| {
          assert init[k] == walk[k];
        }
      }
      if p in AudioPaths(init, isAudio) {
        var k :| 0 <= k < |init| && isAudio(init[k].1) && p == PathJoin(init[k].0, init[k].1);
        assert init[k] == walk[k];
      }
    }
  }

  /** The walk loop of `remove_silent_audio_recursively`, given the walk's
      entries and what reading each path gives (None when `sf.read`
      raises). Returns `removed_files`, the paths it deletes. */
  method RemoveSilent(walk: seq<(string, string)>, read: string -> Option<SoundData>, threshold: real)
    returns (removedFiles: seq<string>)
    ensures removedFiles == Filter(AudioPaths(walk, IsAudioFile), SilentUnder(read, threshold))
  {
    removedFiles := [];
    for k := 0 to |walk|
      invariant removedFiles == Filter(AudioPaths(walk[..k], IsAudioFile), SilentUnder(read, threshold))
    {
      var (currentPath, filename) := walk[k];
      assert walk[..k + 1][..k] == walk[..k] && walk[..k + 1][k] == walk[k];
      if !IsAudioFile(filename) {
        assert AudioPaths(walk[..k + 1], IsAudioFile) == AudioPaths(walk[..k], IsAudioFile);
        continue;
      }
      var filePath := PathJoin(currentPath, filename);
      assert AudioPaths(walk[..k + 1], IsAudioFile) == AudioPaths(walk[..k], IsAudioFile) + [filePath];
      FilterSnoc(AudioPaths(walk[..k], IsAudioFile), filePath, SilentUnder(read, threshold));
      assert SilentUnder(read, threshold)(filePath) == IsSilent(read(filePath), threshold);
      var data := read(filePath);
      if data.None? {
        continue;
      }
      var maxAmp := MaxAbs(Samples(data.value));
      if maxAmp.None? {
        continue;
      }
      if maxAmp.value < threshold {
        removedFiles := removedFiles + [filePath];
      }
    }
    assert walk[..|walk|] == walk;
  }

  /** The removed files are exactly the silent audio files the walk met,
      each listed once when the walk meets each path once; every other file
      is left in place. */
  lemma RemovedFiles(walk: seq<(string, string)>, read: string -> Option<SoundData>, threshold: real, path: string)
    requires NoDuplicates(AudioPaths(walk, IsAudioFile))
    ensures var removed := Filter(AudioPaths(walk, IsAudioFile), SilentUnder(read, threshold));
      && NoDuplicates(removed)
      && (path in removed <==> path in AudioPaths(walk, IsAudioFile) && IsSilent(read(path), threshold))
  {
    FilterNoDuplicates(AudioPaths(walk, IsAudioFile), SilentUnder(read, threshold));
  }
}
