/** Beat-grid slicing, shared by SmallSlices.py (4 bars of 4 beats, 16 beats
    per slice) and Slicer.py (8 bars, 32 beats per slice): the tracked beat
    times are grouped into runs of `beatsPerSegment` beats, each run becomes
    a range of samples of the loaded signal, and each range is written as
    `<base>_<tag>_segment_<k>.wav`. */
module BeatSlicer {
  import opened Text
  import opened Seqs

  /** Both scripts load and write audio at 44.1 kHz. */
  const SampleRate: nat := 44100

  /** One `sf.write(path, frames, rate)` the slicing performs. The frames are
      those of the loaded signal, whatever a frame is (a sample or a tuple of
      channel samples). */
  datatype SliceWrite<T> = SliceWrite(path: string, frames: seq<T>, rate: nat)

  /** `len(beats) // beats_per_segment`, after the early return that skips a
      file with fewer beats than one slice needs. */
  function SegmentCount(beatCount: nat, beatsPerSegment: nat): (r: nat)
    requires beatsPerSegment > 0
    ensures r * beatsPerSegment <= beatCount < (r + 1) * beatsPerSegment
    ensures r == 0 <==> beatCount < beatsPerSegment
  {
    if beatCount < beatsPerSegment then 0 else beatCount / beatsPerSegment
  }

  /** A slice that is counted has all its `beatsPerSegment` beats. */
  lemma SegmentFits(i: nat, beatCount: nat, beatsPerSegment: nat)
    requires beatsPerSegment > 0 && i < SegmentCount(beatCount, beatsPerSegment)
    ensures i * beatsPerSegment + beatsPerSegment <= beatCount
  {
    var r := SegmentCount(beatCount, beatsPerSegment);
    assert (i + 1) * beatsPerSegment <= r * beatsPerSegment;
  }

  /** The beat indices slice `i` starts and ends at: it starts at beat
      `i * beatsPerSegment` and ends at the first beat of the next slice, or
      at the last beat when that index is past the end. */
  function SegmentBounds(i: nat, beatCount: nat, beatsPerSegment: nat): (r: (nat, nat))
    requires beatsPerSegment > 0 && i < SegmentCount(beatCount, beatsPerSegment)
    ensures r.0 <= r.1 < beatCount
  {
    SegmentFits(i, beatCount, beatsPerSegment);
    var next := i * beatsPerSegment + beatsPerSegment;
    (i * beatsPerSegment, if next < beatCount then next else beatCount - 1)
  }

  /** Slice `i` covers its `beatsPerSegment` beats, and the end is clamped to
      the last beat exactly for the last slice of a beat count that
      `beatsPerSegment` divides. */
  lemma SegmentBoundsClamp(i: nat, beatCount: nat, beatsPerSegment: nat)
    requires beatsPerSegment > 0 && i < SegmentCount(beatCount, beatsPerSegment)
    ensures SegmentBounds(i, beatCount, beatsPerSegment).0 == i * beatsPerSegment
    ensures var e := SegmentBounds(i, beatCount, beatsPerSegment).1;
      (e == beatCount - 1 && e != (i + 1) * beatsPerSegment)
      <==> (i + 1 == SegmentCount(beatCount, beatsPerSegment) && beatCount % beatsPerSegment == 0)
    ensures var e := SegmentBounds(i, beatCount, beatsPerSegment).1;
      e == beatCount - 1 || e == (i + 1) * beatsPerSegment
  {
    var r := SegmentCount(beatCount, beatsPerSegment);
    var next := i * beatsPerSegment + beatsPerSegment;
    assert next == (i + 1) * beatsPerSegment;
    SegmentFits(i, beatCount, beatsPerSegment);
    DivMod(beatCount, beatsPerSegment, r);
    if i + 1 < r {
      SegmentFits(i + 1, beatCount, beatsPerSegment);
      assert next < beatCount;
    } else {
      assert next == r * beatsPerSegment;
    }
  }

  /** The quotient and remainder of the counted slices. */
  lemma DivMod(beatCount: nat, beatsPerSegment: nat, r: nat)
    requires beatsPerSegment > 0 && r == SegmentCount(beatCount, beatsPerSegment) && r > 0
    ensures beatCount == r * beatsPerSegment + beatCount % beatsPerSegment
  {
  }

  /** Consecutive slices share their boundary beat. */
  lemma SegmentsAbut(i: nat, beatCount: nat, beatsPerSegment: nat)
    requires beatsPerSegment > 0 && i + 1 < SegmentCount(beatCount, beatsPerSegment)
    ensures SegmentBounds(i, beatCount, beatsPerSegment).1 == SegmentBounds(i + 1, beatCount, beatsPerSegment).0
  {
    SegmentFits(i + 1, beatCount, beatsPerSegment);
    assert (i + 1) * beatsPerSegment == i * beatsPerSegment + beatsPerSegment;
  }

  /** Python's `int(x)` on a float: truncation toward zero. */
  function TruncToInt(x: real): (r: int)
    ensures 0.0 <= x ==> r as real <= x < r as real + 1.0
    ensures x < 0.0 ==> r as real - 1.0 < x <= r as real
  {
    if x >= 0.0 then x.Floor else -((-x).Floor)
  }

  /** `int(time * 44100)`: the sample a beat time falls on. */
  function SampleIndex(time: real): int
  {
    TruncToInt(time * SampleRate as real)
  }

  /** Later times never fall on earlier samples. */
  lemma SampleIndexMonotone(t: real, u: real)
    requires 0.0 <= t <= u
    ensures 0 <= SampleIndex(t) <= SampleIndex(u)
  {
    assert t * SampleRate as real <= u * SampleRate as real;
  }

  /** One end of a Python slice `xs[start:stop]`: a negative index counts from
      the end, and the result is clamped to `0..len`. */
  function SliceIndex(i: int, len: nat): (r: nat)
    ensures r <= len
    ensures 0 <= i <= len ==> r == i
  {
    if i < 0 then (if i + len < 0 then 0 else i + len)
    else if i > len then len
    else i
  }

  /** Python's slice `xs[start:stop]` with the default step. */
  function PySlice<T>(xs: seq<T>, start: int, stop: int): (r: seq<T>)
    ensures |r| <= |xs|
    ensures 0 <= start <= stop <= |xs| ==> r == xs[start..stop]
    ensures 0 <= stop <= start ==> r == []
  {
    var lo, hi := SliceIndex(start, |xs|), SliceIndex(stop, |xs|);
    if lo < hi then xs[lo..hi] else []
  }

  /** Two slices that meet at a non-negative index are the slice spanning
      both: no sample is lost or repeated at the seam. */
  lemma PySliceSplit<T>(xs: seq<T>, a: int, b: int, c: int)
    requires 0 <= a <= b <= c
    ensures PySlice(xs, a, b) + PySlice(xs, b, c) == PySlice(xs, a, c)
  {
    var lo, mid, hi := SliceIndex(a, |xs|), SliceIndex(b, |xs|), SliceIndex(c, |xs|);
    assert lo <= mid <= hi;
    if lo < mid && mid < hi {
      assert xs[lo..mid] + xs[mid..hi] == xs[lo..hi];
    }
  }

  /** `f"{base}_{tag}_segment_{k}.wav"`. */
  function SegmentName(base: string, tag: string, k: nat): string
  {
    base + "_" + tag + "_segment_" + NatToString(k) + ".wav"
  }

  /** Different slice numbers give different names. */
  lemma SegmentNameInjective(base: string, tag: string, k: nat, l: nat)
    requires SegmentName(base, tag, k) == SegmentName(base, tag, l)
    ensures k == l
  {
    var prefix := base + "_" + tag + "_segment_";
    var a, b := NatToString(k), NatToString(l);
    assert SegmentName(base, tag, k) == prefix + a + ".wav";
    assert SegmentName(base, tag, l) == prefix + b + ".wav";
    assert |a| == |b|;
    assert a == SegmentName(base, tag, k)[|prefix|..|prefix| + |a|];
    assert b == SegmentName(base, tag, l)[|prefix|..|prefix| + |b|];
    NatToStringInjective(k, l);
  }

  /** A segment name has no slash when the base and the tag have none. */
  lemma SegmentNameIsPlain(base: string, tag: string, k: nat)
    requires '/' !in base && '/' !in tag
    ensures '/' !in SegmentName(base, tag, k)
  {
    var d := NatToString(k);
    assert '/' !in d by {
      forall j | 0 <= j < |d| ensures d[j] != '/' {
        assert '0' <= d[j] <= '9';
      }
    }
    assert SegmentName(base, tag, k) == base + "_" + tag + "_segment_" + d + ".wav";
  }

  /** `os.path.splitext(os.path.basename(path))[0]`: the name the slices of
      a file are named after. */
  function SliceBase(path: string): (r: string)
    ensures '/' !in r
  {
    var b := Basename(path);
    assert SplitExt(b).0 + SplitExt(b).1 == b;
    assert forall j :: 0 <= j < |SplitExt(b).0| ==> SplitExt(b).0[j] == b[j];
    SplitExt(b).0
  }

  /** The write for slice `i`: the signal between the samples its start and
      end beats fall on, under the numbered name in the output folder. */
  function PlannedSlice<T>(outFolder: string, base: string, tag: string, signal: seq<T>,
                           beats: seq<real>, beatsPerSegment: nat, i: nat): SliceWrite<T>
    requires beatsPerSegment > 0 && i < SegmentCount(|beats|, beatsPerSegment)
  {
    var bounds := SegmentBounds(i, |beats|, beatsPerSegment);
    SliceWrite(PathJoin(outFolder, SegmentName(base, tag, i + 1)),
               PySlice(signal, SampleIndex(beats[bounds.0]), SampleIndex(beats[bounds.1])),
               SampleRate)
  }

  /** The slicing loop of `slice_4bars` and `slice_audio_by_8bars`, given the
      loaded signal and the tracked beat times. */
  method SliceByBeats<T>(filePath: string, outFolder: string, signal: seq<T>, beats: seq<real>,
                         beatsPerSegment: nat, tag: string) returns (writes: seq<SliceWrite<T>>)
    requires beatsPerSegment > 0
    ensures |writes| == SegmentCount(|beats|, beatsPerSegment)
    ensures forall i :: 0 <= i < |writes| ==>
      writes[i] == PlannedSlice(outFolder, SliceBase(filePath), tag, signal, beats, beatsPerSegment, i)
  {
    writes := [];
    if |beats| < beatsPerSegment {
      return;
    }
    // past the early return this is `len(beats) // beats_per_segment`
    var numSegments := SegmentCount(|beats|, beatsPerSegment);
    var baseName := SliceBase(filePath);
    for i := 0 to numSegments
      invariant |writes| == i
      invariant SlicesPlanned(writes, outFolder, baseName, tag, signal, beats, beatsPerSegment)
    {
      var write := SliceSegment(outFolder, baseName, tag, signal, beats, beatsPerSegment, i);
      SlicesPlannedSnoc(writes, write, outFolder, baseName, tag, signal, beats, beatsPerSegment);
      writes := writes + [write];
    }
  }

  /** One iteration of the slicing loop: the start and end beats of slice
      `i`, the samples they fall on, and the write of that range. */
  method SliceSegment<T>(outFolder: string, baseName: string, tag: string, signal: seq<T>,
                         beats: seq<real>, beatsPerSegment: nat, i: nat) returns (write: SliceWrite<T>)
    requires beatsPerSegment > 0 && i < SegmentCount(|beats|, beatsPerSegment)
    ensures write == PlannedSlice(outFolder, baseName, tag, signal, beats, beatsPerSegment, i)
  {
    var bounds := SegmentBounds(i, |beats|, beatsPerSegment);
    var startTime := beats[bounds.0];
    var endTime := beats[bounds.1];
    var startSample := SampleIndex(startTime);
    var endSample := SampleIndex(endTime);
    var sliceAudio := PySlice(signal, startSample, endSample);
    var outPath := PathJoin(outFolder, SegmentName(baseName, tag, i + 1));
    write := SliceWrite(outPath, sliceAudio, SampleRate);
  }

  /** `writes` are the planned writes of the first `|writes|` slices. */
  ghost predicate SlicesPlanned<T>(writes: seq<SliceWrite<T>>, outFolder: string, base: string, tag: string,
                                   signal: seq<T>, beats: seq<real>, beatsPerSegment: nat)
  {
    && beatsPerSegment > 0
    && forall k :: 0 <= k < |writes| ==>
         k < SegmentCount(|beats|, beatsPerSegment)
         && writes[k] == PlannedSlice(outFolder, base, tag, signal, beats, beatsPerSegment, k)
  }

  /** Writing the next planned slice extends the planned prefix by one. */
  lemma SlicesPlannedSnoc<T>(writes: seq<SliceWrite<T>>, w: SliceWrite<T>, outFolder: string, base: string,
                             tag: string, signal: seq<T>, beats: seq<real>, beatsPerSegment: nat)
    requires SlicesPlanned(writes, outFolder, base, tag, signal, beats, beatsPerSegment)
    requires |writes| < SegmentCount(|beats|, beatsPerSegment)
    requires w == PlannedSlice(outFolder, base, tag, signal, beats, beatsPerSegment, |writes|)
    ensures SlicesPlanned(writes + [w], outFolder, base, tag, signal, beats, beatsPerSegment)
  {
    AllSnoc(writes, w, (k: nat, x: SliceWrite<T>) =>
      k < SegmentCount(|beats|, beatsPerSegment)
      && x == PlannedSlice(outFolder, base, tag, signal, beats, beatsPerSegment, k));
  }

  /** `slice_4bars`: 16 beats per slice, named `..._4bar_segment_<k>.wav`. */
  method SliceFourBars<T>(filePath: string, outFolder: string, signal: seq<T>, beats: seq<real>)
    returns (writes: seq<SliceWrite<T>>)
    ensures |writes| == SegmentCount(|beats|, 16)
    ensures forall i :: 0 <= i < |writes| ==>
      writes[i] == PlannedSlice(outFolder, SliceBase(filePath), "4bar", signal, beats, 16, i)
    ensures forall i, j :: 0 <= i < j < |writes| ==> writes[i].path != writes[j].path
  {
    writes := SliceByBeats(filePath, outFolder, signal, beats, 16, "4bar");
    assert '/' !in "4bar";
    assert '/' !in SliceBase(filePath);
    PlannedWritesDistinct(writes, outFolder, SliceBase(filePath), "4bar", signal, beats, 16);
  }

  /** `slice_audio_by_8bars`: 32 beats per slice, named
      `..._8bar_segment_<k>.wav`. */
  method SliceEightBars<T>(audioFile: string, outFolder: string, signal: seq<T>, beats: seq<real>)
    returns (writes: seq<SliceWrite<T>>)
    ensures |writes| == SegmentCount(|beats|, 32)
    ensures forall i :: 0 <= i < |writes| ==>
      writes[i] == PlannedSlice(outFolder, SliceBase(audioFile), "8bar", signal, beats, 32, i)
    ensures forall i, j :: 0 <= i < j < |writes| ==> writes[i].path != writes[j].path
  {
    writes := SliceByBeats(audioFile, outFolder, signal, beats, 32, "8bar");
    assert '/' !in "8bar";
    assert '/' !in SliceBase(audioFile);
    PlannedWritesDistinct(writes, outFolder, SliceBase(audioFile), "8bar", signal, beats, 32);
  }

  /** The slices of one file are written to pairwise different paths. */
  lemma PlannedPathsDistinct<T>(outFolder: string, base: string, tag: string, signal: seq<T>,
                                beats: seq<real>, beatsPerSegment: nat, i: nat, j: nat)
    requires '/' !in base && '/' !in tag
    requires beatsPerSegment > 0 && i < j < SegmentCount(|beats|, beatsPerSegment)
    ensures PlannedSlice(outFolder, base, tag, signal, beats, beatsPerSegment, i).path
         != PlannedSlice(outFolder, base, tag, signal, beats, beatsPerSegment, j).path
  {
    var a, b := SegmentName(base, tag, i + 1), SegmentName(base, tag, j + 1);
    if PathJoin(outFolder, a) == PathJoin(outFolder, b) {
      SegmentNameIsPlain(base, tag, i + 1);
      SegmentNameIsPlain(base, tag, j + 1);
      PathJoinInjective(outFolder, a, b);
      SegmentNameInjective(base, tag, i + 1, j + 1);
    }
  }

  /** Writes that follow the plan go to pairwise different paths. */
  lemma PlannedWritesDistinct<T>(writes: seq<SliceWrite<T>>, outFolder: string, base: string, tag: string,
                                 signal: seq<T>, beats: seq<real>, beatsPerSegment: nat)
    requires '/' !in base && '/' !in tag
    requires beatsPerSegment > 0 && |writes| <= SegmentCount(|beats|, beatsPerSegment)
    requires forall i :: 0 <= i < |writes| ==>
      writes[i] == PlannedSlice(outFolder, base, tag, signal, beats, beatsPerSegment, i)
    ensures forall i, j :: 0 <= i < j < |writes| ==> writes[i].path != writes[j].path
  {
    forall i, j | 0 <= i < j < |writes| ensures writes[i].path != writes[j].path {
      PlannedPathsDistinct(outFolder, base, tag, signal, beats, beatsPerSegment, i, j);
    }
  }

  /** Beat times as the tracker reports them: non-negative and in order. */
  ghost predicate BeatTimes(beats: seq<real>)
  {
    (forall i :: 0 <= i < |beats| ==> 0.0 <= beats[i])
    && (forall i, j :: 0 <= i <= j < |beats| ==> beats[i] <= beats[j])
  }

  /** For ordered beat times, slices `0..n-1` laid end to end are exactly the
      signal from the first beat's sample to the end of slice `n - 1`:
      consecutive slices neither overlap nor leave a gap. */
  lemma {:induction false} SlicesTile<T>(outFolder: string, base: string, tag: string, signal: seq<T>,
                                         beats: seq<real>, beatsPerSegment: nat, n: nat)
    requires BeatTimes(beats)
    requires beatsPerSegment > 0 && 0 < n <= SegmentCount(|beats|, beatsPerSegment)
    ensures Frames(outFolder, base, tag, signal, beats, beatsPerSegment, n)
         == PySlice(signal, SampleIndex(beats[0]),
                    SampleIndex(beats[SegmentBounds(n - 1, |beats|, beatsPerSegment).1]))
  {
    var first := SegmentBounds(0, |beats|, beatsPerSegment);
    assert first.0 == 0;
    if n > 1 {
      SlicesTile(outFolder, base, tag, signal, beats, beatsPerSegment, n - 1);
      SegmentsAbut(n - 2, |beats|, beatsPerSegment);
      var prev := SegmentBounds(n - 2, |beats|, beatsPerSegment);
      var last := SegmentBounds(n - 1, |beats|, beatsPerSegment);
      SampleIndexMonotone(beats[0], beats[prev.1]);
      SampleIndexMonotone(beats[last.0], beats[last.1]);
      PySliceSplit(signal, SampleIndex(beats[0]), SampleIndex(beats[prev.1]), SampleIndex(beats[last.1]));
    }
  }

  /** The frames of slices `0..n-1`, concatenated in slice order. */
  function Frames<T>(outFolder: string, base: string, tag: string, signal: seq<T>,
                     beats: seq<real>, beatsPerSegment: nat, n: nat): seq<T>
    requires beatsPerSegment > 0 && n <= SegmentCount(|beats|, beatsPerSegment)
  {
    if n == 0 then []
    else
      Frames(outFolder, base, tag, signal, beats, beatsPerSegment, n - 1)
      + PlannedSlice(outFolder, base, tag, signal, beats, beatsPerSegment, n - 1).frames
  }

  /** 40 beats make two 16-beat slices, the second ending on beat 32. */
  lemma FortyBeatsInFourBars()
    ensures SegmentCount(40, 16) == 2
    ensures SegmentBounds(0, 40, 16) == (0, 16) && SegmentBounds(1, 40, 16) == (16, 32)
  {
  }

  /** 64 beats make two 32-beat slices, the second clamped to beat 63. */
  lemma SixtyFourBeatsInEightBars()
    ensures SegmentCount(64, 32) == 2
    ensures SegmentBounds(1, 64, 32) == (32, 63)
  {
  }

  /** Too few beats for one slice write nothing. */
  lemma TooFewBeats(beatCount: nat, beatsPerSegment: nat)
    requires beatCount < beatsPerSegment
    ensures SegmentCount(beatCount, beatsPerSegment) == 0
  {
  }
}
