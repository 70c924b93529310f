/** `combine_stems` and `reverse_wav_file` of Reverser.py: stems are summed
    sample by sample, the shorter of the running mix and the next stem being
    zero-padded to the longer, and a combined file is reversed in time. */
module StemMixer {
  import opened Wrappers

  /** A decoded audio file: its sample rate and its (mono) samples. */
  datatype AudioFile = AudioFile(rate: nat, samples: seq<real>)

  /** One `sf.write(path, samples, rate)`. */
  datatype WavWrite = WavWrite(path: string, audio: AudioFile)

  /** What `combine_stems` does with its list of stems: nothing for an empty
      list, a `ValueError` naming the first stem (by index) whose rate differs
      from the first stem's, or the combined audio to write. */
  datatype Combination = NothingToCombine | RateMismatch(index: nat) | Combined(audio: AudioFile)

  /** Sample `i` of a buffer zero-padded past its end. */
  function SampleOr0(s: seq<real>, i: nat): real
  {
    if i < |s| then s[i] else 0.0
  }

  /** The length of the longest stem (0 for no stems). */
  function MaxLen(stems: seq<AudioFile>): (r: nat)
    ensures forall j :: 0 <= j < |stems| ==> |stems[j].samples| <= r
    ensures stems != [] ==> exists j :: 0 <= j < |stems| && |stems[j].samples| == r
    ensures stems == [] ==> r == 0
  {
    if stems == [] then 0
    else
      var init := stems[..|stems| - 1];
      var m := MaxLen(init);
      var n := |stems[|stems| - 1].samples|;
      assert forall j :: 0 <= j < |init| ==> init[j] == stems[j];
      if n > m then n else m
  }

  /** The sum of sample `i` over the stems long enough to have one: the
      value the combined file holds at `i`. */
  function SumAt(stems: seq<AudioFile>, i: nat): real
  {
    if stems == [] then 0.0
    else SumAt(stems[..|stems| - 1], i) + SampleOr0(stems[|stems| - 1].samples, i)
  }

  /** `mix` is the sample-wise sum of `stems`, as long as the longest. */
  ghost predicate Mixes(mix: seq<real>, stems: seq<AudioFile>)
  {
    |mix| == MaxLen(stems) && forall i :: 0 <= i < |mix| ==> mix[i] == SumAt(stems, i)
  }

  /** All stems share the first stem's rate. */
  predicate SameRate(stems: seq<AudioFile>)
  {
    forall j :: 0 <= j < |stems| ==> stems[j].rate == stems[0].rate
  }

  /** The samples of the mix of `stems`. */
  function Mix(stems: seq<AudioFile>): (r: seq<real>)
    ensures Mixes(r, stems)
  {
    seq(MaxLen(stems), i requires 0 <= i => SumAt(stems, i))
  }

  /** A stem list has one mix. */
  lemma MixesUnique(a: seq<real>, b: seq<real>, stems: seq<AudioFile>)
    requires Mixes(a, stems) && Mixes(b, stems)
    ensures a == b
  {
  }

  /** The first stem at or after `from` whose rate differs from the first
      stem's. */
  function FirstRateMismatch(stems: seq<AudioFile>, from: nat): (r: Option<nat>)
    requires 0 < |stems|
    decreases |stems| - from
    ensures r.None? ==> forall j :: from <= j < |stems| ==> stems[j].rate == stems[0].rate
    ensures r.Some? ==>
      && from <= r.value < |stems|
      && stems[r.value].rate != stems[0].rate
      && forall j :: from <= j < r.value ==> stems[j].rate == stems[0].rate
  {
    if from >= |stems| then None
    else if stems[from].rate != stems[0].rate then Some(from)
    else FirstRateMismatch(stems, from + 1)
  }

  /** What combining `stems` amounts to: nothing for no stems, a failure on
      the first stem whose rate differs from the first stem's, or otherwise
      the sample-wise sum at the common rate. */
  function Combine(stems: seq<AudioFile>): (r: Combination)
    ensures r == NothingToCombine <==> stems == []
    ensures r.RateMismatch? ==>
      && 0 < r.index < |stems|
      && stems[r.index].rate != stems[0].rate
      && forall j :: 0 <= j < r.index ==> stems[j].rate == stems[0].rate
    ensures stems != [] ==> (r.Combined? <==> SameRate(stems))
    ensures r.Combined? ==> r.audio.rate == stems[0].rate && Mixes(r.audio.samples, stems)
  {
    if stems == [] then NothingToCombine
    else match FirstRateMismatch(stems, 1)
      case Some(j) => RateMismatch(j)
      case None => Combined(AudioFile(stems[0].rate, Mix(stems)))
  }

  /** Past the longest stem every sum is zero. */
  lemma {:induction false} SumAtBeyond(stems: seq<AudioFile>, i: nat)
    requires MaxLen(stems) <= i
    ensures SumAt(stems, i) == 0.0
  {
    if stems != [] {
      var init := stems[..|stems| - 1];
      assert forall j :: 0 <= j < |init| ==> init[j] == stems[j];
      SumAtBeyond(init, i);
    }
  }

  /** Adding the zero-padded next stem to the zero-padded mix of the stems
      before it gives the mix of one stem more. */
  lemma MixesStep(before: seq<real>, after: seq<real>, stems: seq<AudioFile>, k: nat)
    requires k < |stems| && Mixes(before, stems[..k])
    requires |after| == (if |stems[k].samples| > |before| then |stems[k].samples| else |before|)
    requires forall i :: 0 <= i < |after| ==> after[i] == SampleOr0(before, i) + SampleOr0(stems[k].samples, i)
    ensures Mixes(after, stems[..k + 1])
  {
    var prefix := stems[..k + 1];
    assert prefix[..|prefix| - 1] == stems[..k];
    assert prefix[|prefix| - 1] == stems[k];
    forall i | 0 <= i < |after| ensures after[i] == SumAt(prefix, i) {
      if i >= |before| {
        SumAtBeyond(stems[..k], i);
      }
    }
  }

  /** A fresh array holding `s`. */
  method ToArray(s: seq<real>) returns (a: array<real>)
    ensures fresh(a) && a[..] == s
  {
    a := new real[|s|](i requires 0 <= i < |s| => s[i]);
  }

  /** `padded = np.zeros_like(...); padded[:len(data)] = data`: `data`
      followed by zeros up to length `n`. */
  method ZeroPadded(data: array<real>, n: nat) returns (padded: array<real>)
    requires data.Length <= n
    ensures fresh(padded) && padded.Length == n
    ensures forall i :: 0 <= i < n ==> padded[i] == SampleOr0(data[..], i)
  {
    padded := new real[n](_ => 0.0);
    for i := 0 to data.Length
      invariant forall j :: 0 <= j < i ==> padded[j] == data[j]
      invariant forall j :: i <= j < n ==> padded[j] == 0.0
    {
      padded[i] := data[i];
    }
  }

  /** `combined += stem` on buffers of equal length. */
  method AddInto(combined: array<real>, stem: array<real>)
    requires combined.Length == stem.Length && combined != stem
    modifies combined
    ensures forall i :: 0 <= i < combined.Length ==> combined[i] == old(combined[i]) + stem[i]
  {
    for i := 0 to combined.Length
      invariant forall j :: 0 <= j < i ==> combined[j] == old(combined[j]) + stem[j]
      invariant forall j :: i <= j < combined.Length ==> combined[j] == old(combined[j])
    {
      combined[i] := combined[i] + stem[i];
    }
  }

  /** One step of the fold: load the next stem, zero-pad whichever of the
      running mix and the stem is shorter, and add the stem in. The result
      is the running mix itself, updated in place, unless the stem was
      longer and a padded copy of the mix took its place. */
  method PadAndAdd(combined: array<real>, samples: seq<real>) returns (result: array<real>)
    modifies combined
    ensures result == combined || fresh(result)
    ensures result != combined ==> combined[..] == old(combined[..])
    ensures result.Length == (if |samples| > combined.Length then |samples| else combined.Length)
    ensures forall i :: 0 <= i < result.Length ==>
      result[i] == SampleOr0(old(combined[..]), i) + SampleOr0(samples, i)
  {
    result := combined;
    var stemData := ToArray(samples);
    if stemData.Length < result.Length {
      stemData := ZeroPadded(stemData, result.Length);
    } else if stemData.Length > result.Length {
      result := ZeroPadded(result, stemData.Length);
    }
    AddInto(result, stemData);
  }

  /** `combine_stems`, given the decoded stems in list order. */
  method CombineStems(stems: seq<AudioFile>) returns (r: Combination)
    ensures r == Combine(stems)
  {
    if stems == [] {
      return NothingToCombine;
    }
    var sr := stems[0].rate;
    var combined := ToArray(stems[0].samples);
    assert stems[..1] == [stems[0]] && [stems[0]][..0] == [];
    var k := 1;
    while k < |stems|
      invariant 1 <= k <= |stems|
      invariant fresh(combined)
      invariant forall j :: 0 <= j < k ==> stems[j].rate == sr
      invariant Mixes(combined[..], stems[..k])
    {
      if stems[k].rate != sr {
        return RateMismatch(k);
      }
      ghost var before := combined[..];
      combined := PadAndAdd(combined, stems[k].samples);
      MixesStep(before, combined[..], stems, k);
      k := k + 1;
    }
    assert stems[..k] == stems;
    MixesUnique(combined[..], Mix(stems), stems);
    return Combined(AudioFile(sr, combined[..]));
  }

  /** A single stem is written unchanged. */
  lemma SingleStemMix(stem: AudioFile)
    ensures Mixes(stem.samples, [stem])
  {
    assert [stem][..0] == [];
  }

  /** The longest stem so far never gets shorter as stems are added: the
      running mix only grows. */
  lemma MaxLenGrows(stems: seq<AudioFile>, j: nat, k: nat)
    requires j <= k <= |stems|
    ensures MaxLen(stems[..j]) <= MaxLen(stems[..k])
  {
    if j > 0 {
      var w :| 0 <= w < j && |stems[..j][w].samples| == MaxLen(stems[..j]);
      assert stems[..j][w] == stems[..k][w];
    }
  }

  /** Five samples of 1 mixed with three samples of 2. */
  lemma MixExample()
    ensures var stems := [AudioFile(44100, [1.0, 1.0, 1.0, 1.0, 1.0]), AudioFile(44100, [2.0, 2.0, 2.0])];
      Mixes([3.0, 3.0, 3.0, 1.0, 1.0], stems)
  {
    var stems := [AudioFile(44100, [1.0, 1.0, 1.0, 1.0, 1.0]), AudioFile(44100, [2.0, 2.0, 2.0])];
    assert stems[..1] == [stems[0]] && [stems[0]][..0] == [];
    assert MaxLen(stems) == 5;
    forall i | 0 <= i < 5 ensures SumAt(stems, i) == [3.0, 3.0, 3.0, 1.0, 1.0][i] {
      assert SumAt(stems[..1], i) == 1.0;
    }
  }

  /** `np.flipud`: the samples in reverse order. */
  function Reversed<T>(xs: seq<T>): (r: seq<T>)
    ensures |r| == |xs|
    ensures forall i :: 0 <= i < |xs| ==> r[i] == xs[|xs| - 1 - i]
  {
    if xs == [] then [] else [xs[|xs| - 1]] + Reversed(xs[..|xs| - 1])
  }

  /** Reversing twice gives the original samples. */
  lemma ReversedTwice<T>(xs: seq<T>)
    ensures Reversed(Reversed(xs)) == xs
  {
    var r := Reversed(Reversed(xs));
    assert forall i :: 0 <= i < |xs| ==> r[i] == xs[i];
  }

  /** `reverse_wav_file(in_path, out_path)`: the file's samples reversed,
      written with its own rate to `out_path`, or over `in_path` when no
      output path is given. */
  function ReverseWavFile(inPath: string, outPath: Option<string>, audio: AudioFile): (w: WavWrite)
    ensures w.audio.rate == audio.rate && |w.audio.samples| == |audio.samples|
    ensures w.path == (if outPath.Some? then outPath.value else inPath)
  {
    WavWrite(if outPath.None? then inPath else outPath.value, AudioFile(audio.rate, Reversed(audio.samples)))
  }

  /** Reversing a reversed file restores the original audio. */
  lemma ReverseWavFileTwice(inPath: string, outPath: Option<string>, audio: AudioFile)
    ensures ReverseWavFile(inPath, outPath, ReverseWavFile(inPath, outPath, audio).audio).audio == audio
  {
    ReversedTwice(audio.samples);
  }
}
