/** The naming side of Splitter.py: which input files are separated, and how
    the separator's stem files are renamed into `<base>_<instrument>.wav`,
    the convention that `parse_filename` of Reverser.py reads back. */
module Splitter {
  import opened Seqs
  import opened Text
  import opened Reversal

  /** `SUPPORTED_EXTENSIONS`. */
  const SupportedExtensions: seq<string> := [".mp3", ".wav", ".flac", ".ogg", ".m4a"]

  /** `file.lower().endswith(SUPPORTED_EXTENSIONS)`. */
  predicate IsSupportedInput(file: string)
  {
    EndsWithAny(Lower(file), SupportedExtensions)
  }

  /** The inputs `process_audio_files` hands to `run_demucs`, in listing
      order. */
  function InputPaths(listing: seq<string>, inputFolder: string): (r: seq<string>)
    ensures |r| <= |listing|
  {
    if listing == [] then []
    else
      var file := listing[|listing| - 1];
      InputPaths(listing[..|listing| - 1], inputFolder)
      + (if IsSupportedInput(file) then [PathJoin(inputFolder, file)] else [])
  }

  /** A plain file of the input folder is separated exactly when its
      lower-cased name has a supported extension. */
  lemma {:induction false} InputPathsSelect(listing: seq<string>, inputFolder: string, file: string)
    requires '/' !in file && forall f :: f in listing ==> '/' !in f
    ensures PathJoin(inputFolder, file) in InputPaths(listing, inputFolder) <==> file in listing && IsSupportedInput(file)
  {
    if listing != [] {
      var init, last := listing[..|listing| - 1], listing[|listing| - 1];
      assert listing == init + [last];
      forall f | f in init ensures '/' !in f {
        assert f in listing;
      }
      InputPathsSelect(init, inputFolder, file);
      if PathJoin(inputFolder, file) == PathJoin(inputFolder, last) {
        PathJoinInjective(inputFolder, file, last);
      }
    }
  }

  /** The loop of `process_audio_files` over the input folder. */
  method SelectInputs(listing: seq<string>, inputFolder: string) returns (inputs: seq<string>)
    ensures inputs == InputPaths(listing, inputFolder)
  {
    inputs := [];
    for k := 0 to |listing|
      invariant inputs == InputPaths(listing[..k], inputFolder)
    {
      var file := listing[k];
      assert listing[..k + 1][..k] == listing[..k];
      if IsSupportedInput(file) {
        inputs := inputs + [PathJoin(inputFolder, file)];
      }
    }
    assert listing[..|listing|] == listing;
  }

  /** `f"{base_name}_{instrument}.wav"`, with the base the input's file name
      without its extension and the instrument the separator's file name
      without its extension. */
  function StemFileName(inputFile: string, demucsFile: string): string
  {
    SplitExt(Basename(inputFile)).0 + "_" + SplitExt(demucsFile).0 + ".wav"
  }

  /** The stem names Splitter.py writes are the ones Reverser.py reads: the
      base and the lower-cased instrument come back out, as long as the
      instrument has no underscore. */
  lemma StemFileNameParses(inputFile: string, demucsFile: string)
    requires '_' !in SplitExt(demucsFile).0
    ensures ParseFilename(StemFileName(inputFile, demucsFile))
         == (SplitExt(Basename(inputFile)).0, Lower(SplitExt(demucsFile).0))
  {
    ParseStemFileName(SplitExt(Basename(inputFile)).0, SplitExt(demucsFile).0);
  }

  /** One `shutil.move(source, destination)`. */
  datatype Move = Move(source: string, destination: string)

  /** The moves `move_demucs_files` performs for the listing of the
      separator's song folder: every name ending in `.wav`, compared with
      its case kept, is moved into the output folder under its stem name. */
  function PlannedMoves(listing: seq<string>, inputFile: string, songFolder: string, outputFolder: string)
    : (r: seq<Move>)
    ensures |r| <= |listing|
  {
    if listing == [] then []
    else
      var file := listing[|listing| - 1];
      PlannedMoves(listing[..|listing| - 1], inputFile, songFolder, outputFolder)
      + (if EndsWith(file, ".wav")
         then [Move(PathJoin(songFolder, file), PathJoin(outputFolder, StemFileName(inputFile, file)))]
         else [])
  }

  /** The renaming loop of `move_demucs_files`. */
  method MoveDemucsFiles(inputFile: string, songFolder: string, outputFolder: string, listing: seq<string>)
    returns (moves: seq<Move>)
    ensures moves == PlannedMoves(listing, inputFile, songFolder, outputFolder)
  {
    var baseName := SplitExt(Basename(inputFile)).0;
    moves := [];
    for k := 0 to |listing|
      invariant moves == PlannedMoves(listing[..k], inputFile, songFolder, outputFolder)
    {
      var file := listing[k];
      assert listing[..k + 1][..k] == listing[..k];
      if EndsWith(file, ".wav") {
        var instrument := SplitExt(file).0;
        var newFilename := baseName + "_" + instrument + ".wav";
        var sourcePath := PathJoin(songFolder, file);
        var destinationPath := PathJoin(outputFolder, newFilename);
        moves := moves + [Move(sourcePath, destinationPath)];
      }
    }
    assert listing[..|listing|] == listing;
  }

  /** A plain file of the separator's song folder is moved to its stem
      name exactly when its name ends in `.wav`. */
  lemma {:induction false} PlannedMovesSelect(listing: seq<string>, inputFile: string, songFolder: string,
                                              outputFolder: string, file: string)
    requires '/' !in file && forall f :: f in listing ==> '/' !in f
    ensures Move(PathJoin(songFolder, file), PathJoin(outputFolder, StemFileName(inputFile, file)))
              in PlannedMoves(listing, inputFile, songFolder, outputFolder)
        <==> file in listing && EndsWith(file, ".wav")
  {
    if listing != [] {
      var init, last := listing[..|listing| - 1], listing[|listing| - 1];
      assert listing == init + [last];
      forall f | f in init ensures '/' !in f {
        assert f in listing;
      }
      PlannedMovesSelect(init, inputFile, songFolder, outputFolder, file);
      if PathJoin(songFolder, file) == PathJoin(songFolder, last) {
        PathJoinInjective(songFolder, file, last);
      }
    }
  }

  /** The separator files are only taken when they end in lower-case
      `.wav`: an input named `X.WAV` is separated, but a stem file named
      `bass.WAV` would not be moved. */
  lemma WavCaseDiffers()
    ensures IsSupportedInput("X.WAV")
    ensures PlannedMoves(["bass.WAV"], "X.WAV", "sep", "out") == []
  {
    assert Lower("X.WAV") == "x.wav";
    assert EndsWith(Lower("X.WAV"), SupportedExtensions[1]);
    assert ["bass.WAV"][..0] == [];
    assert !EndsWith("bass.WAV", ".wav") by {
      assert "bass.WAV"[5..] == "WAV";
    }
  }

  /** A name ending in `.wav` splits into the rest and `.wav`. */
  lemma WavSplits(root: string)
    ensures SplitExt(root + ".wav") == (root, ".wav")
  {
    assert ".wav"[1..] == "wav";
    assert '.' !in "wav";
    SplitExtOf(root, ".wav");
  }

  /** Stem files with different names get different destinations. */
  lemma StemFileNameInjective(inputFile: string, a: string, b: string)
    requires EndsWith(a, ".wav") && EndsWith(b, ".wav")
    requires StemFileName(inputFile, a) == StemFileName(inputFile, b)
    ensures a == b
  {
    var base := SplitExt(Basename(inputFile)).0;
    var ra, rb := a[..|a| - 4], b[..|b| - 4];
    assert a == ra + ".wav" && b == rb + ".wav";
    WavSplits(ra);
    WavSplits(rb);
    assert StemFileName(inputFile, a) == base + "_" + ra + ".wav";
    assert StemFileName(inputFile, b) == base + "_" + rb + ".wav";
    CancelAround(base + "_", ra, rb, ".wav");
  }
}
