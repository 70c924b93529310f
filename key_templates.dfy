/** Recognition of the key templates themselves: a chroma vector that is
    one of the two profiles transposed to some tonic is labelled with that
    tonic and the profile's mode. Every score is computed from the profile
    constants of AdvancedKeyDetector.py. */
module KeyTemplates {
  import opened KeyDetector

  /** `np.roll(profile, k)`: a template transposed up by `k` semitones. */
  function Transposed(profile: seq<real>, k: nat): (r: seq<real>)
    requires |profile| == 12 && k < 12
    ensures |r| == 12
  {
    Rotate(profile, (12 - k) % 12)
  }

  /** Transposing moves bin `j` of the template up to bin `j + k`, taken
      modulo 12. */
  lemma TransposedAt(profile: seq<real>, k: nat, j: nat)
    requires |profile| == 12 && k < 12 && j < 12
    ensures Transposed(profile, k)[(j + k) % 12] == profile[j]
  {
    var shift := if k == 0 then 0 else 12 - k;
    var bin := if j + k < 12 then j + k else j + k - 12;
    assert (12 - k) % 12 == shift && (j + k) % 12 == bin;
    RotateAt(profile, shift, bin);
    assert (bin + shift) % 12 == j;
  }

  /** Index arithmetic behind composing two rotations. */
  lemma AddMod12(j: nat, a: nat, b: nat)
    requires j < 12 && a < 12 && b < 12
    ensures ((j + b) % 12 + a) % 12 == (j + (a + b) % 12) % 12
  {
    var x := if j + b < 12 then j + b else j + b - 12;
    assert (j + b) % 12 == x;
    var z := if a + b < 12 then a + b else a + b - 12;
    assert (a + b) % 12 == z;
    assert (x + a) % 12 == (if x + a < 12 then x + a else x + a - 12);
    assert (j + z) % 12 == (if j + z < 12 then j + z else j + z - 12);
  }

  /** Rotating twice is rotating by the sum of the shifts. */
  lemma RotateTwice(chroma: seq<real>, a: nat, b: nat)
    requires |chroma| == 12 && a < 12 && b < 12
    ensures Rotate(Rotate(chroma, a), b) == Rotate(chroma, (a + b) % 12)
  {
    var once := Rotate(chroma, a);
    var twice := Rotate(once, b);
    var direct := Rotate(chroma, (a + b) % 12);
    forall j | 0 <= j < 12 ensures twice[j] == direct[j] {
      AddMod12(j, a, b);
      RotateAt(once, b, j);
      RotateAt(chroma, a, (j + b) % 12);
      RotateAt(chroma, (a + b) % 12, j);
    }
  }

  /** Scoring a transposed vector at shift `s` is scoring the original at
      shift `s - k`, taken modulo 12. */
  lemma ScoreOfTransposed(profile: seq<real>, k: nat, s: nat, m: Mode)
    requires |profile| == 12 && k < 12 && s < 12
    ensures Score(Transposed(profile, k), s, m) == Score(profile, (s + 12 - k) % 12, m)
  {
    RotateTwice(profile, (12 - k) % 12, s);
    assert ((12 - k) % 12 + s) % 12 == (s + 12 - k) % 12;
  }

  // Each of the 46 other candidates, scored against an untransposed
  // template, evaluated exactly from the profile constants: one lemma per
  // candidate keeps each evaluation small.

  /** The major template at shift 1 in major mode. */
  lemma MajorTemplateVsMajorAt1()
    ensures Score(MajorProfile, 1, Major) < Score(MajorProfile, 0, Major)
  {
  }

  /** The major template at shift 2 in major mode. */
  lemma MajorTemplateVsMajorAt2()
    ensures Score(MajorProfile, 2, Major) < Score(MajorProfile, 0, Major)
  {
  }

  /** The major template at shift 3 in major mode. */
  lemma MajorTemplateVsMajorAt3()
    ensures Score(MajorProfile, 3, Major) < Score(MajorProfile, 0, Major)
  {
  }

  /** The major template at shift 4 in major mode. */
  lemma MajorTemplateVsMajorAt4()
    ensures Score(MajorProfile, 4, Major) < Score(MajorProfile, 0, Major)
  {
  }

  /** The major template at shift 5 in major mode. */
  lemma MajorTemplateVsMajorAt5()
    ensures Score(MajorProfile, 5, Major) < Score(MajorProfile, 0, Major)
  {
  }

  /** The major template at shift 6 in major mode. */
  lemma MajorTemplateVsMajorAt6()
    ensures Score(MajorProfile, 6, Major) < Score(MajorProfile, 0, Major)
  {
  }

  /** The major template at shift 7 in major mode. */
  lemma MajorTemplateVsMajorAt7()
    ensures Score(MajorProfile, 7, Major) < Score(MajorProfile, 0, Major)
  {
  }

  /** The major template at shift 8 in major mode. */
  lemma MajorTemplateVsMajorAt8()
    ensures Score(MajorProfile, 8, Major) < Score(MajorProfile, 0, Major)
  {
  }

  /** The major template at shift 9 in major mode. */
  lemma MajorTemplateVsMajorAt9()
    ensures Score(MajorProfile, 9, Major) < Score(MajorProfile, 0, Major)
  {
  }

  /** The major template at shift 10 in major mode. */
  lemma MajorTemplateVsMajorAt10()
    ensures Score(MajorProfile, 10, Major) < Score(MajorProfile, 0, Major)
  {
  }

  /** The major template at shift 11 in major mode. */
  lemma MajorTemplateVsMajorAt11()
    ensures Score(MajorProfile, 11, Major) < Score(MajorProfile, 0, Major)
  {
  }

  /** The major template at shift 0 in minor mode. */
  lemma MajorTemplateVsMinorAt0()
    ensures Score(MajorProfile, 0, Minor) < Score(MajorProfile, 0, Major)
  {
  }

  /** The major template at shift 1 in minor mode. */
  lemma MajorTemplateVsMinorAt1()
    ensures Score(MajorProfile, 1, Minor) < Score(MajorProfile, 0, Major)
  {
  }

  /** The major template at shift 2 in minor mode. */
  lemma MajorTemplateVsMinorAt2()
    ensures Score(MajorProfile, 2, Minor) < Score(MajorProfile, 0, Major)
  {
  }

  /** The major template at shift 3 in minor mode. */
  lemma MajorTemplateVsMinorAt3()
    ensures Score(MajorProfile, 3, Minor) < Score(MajorProfile, 0, Major)
  {
  }

  /** The major template at shift 4 in minor mode. */
  lemma MajorTemplateVsMinorAt4()
    ensures Score(MajorProfile, 4, Minor) < Score(MajorProfile, 0, Major)
  {
  }

  /** The major template at shift 5 in minor mode. */
  lemma MajorTemplateVsMinorAt5()
    ensures Score(MajorProfile, 5, Minor) < Score(MajorProfile, 0, Major)
  {
  }

  /** The major template at shift 6 in minor mode. */
  lemma MajorTemplateVsMinorAt6()
    ensures Score(MajorProfile, 6, Minor) < Score(MajorProfile, 0, Major)
  {
  }

  /** The major template at shift 7 in minor mode. */
  lemma MajorTemplateVsMinorAt7()
    ensures Score(MajorProfile, 7, Minor) < Score(MajorProfile, 0, Major)
  {
  }

  /** The major template at shift 8 in minor mode. */
  lemma MajorTemplateVsMinorAt8()
    ensures Score(MajorProfile, 8, Minor) < Score(MajorProfile, 0, Major)
  {
  }

  /** The major template at shift 9 in minor mode. */
  lemma MajorTemplateVsMinorAt9()
    ensures Score(MajorProfile, 9, Minor) < Score(MajorProfile, 0, Major)
  {
  }

  /** The major template at shift 10 in minor mode. */
  lemma MajorTemplateVsMinorAt10()
    ensures Score(MajorProfile, 10, Minor) < Score(MajorProfile, 0, Major)
  {
  }

  /** The major template at shift 11 in minor mode. */
  lemma MajorTemplateVsMinorAt11()
    ensures Score(MajorProfile, 11, Minor) < Score(MajorProfile, 0, Major)
  {
  }

  /** The minor template at shift 0 in major mode. */
  lemma MinorTemplateVsMajorAt0()
    ensures Score(MinorProfile, 0, Major) < Score(MinorProfile, 0, Minor)
  {
  }

  /** The minor template at shift 1 in major mode. */
  lemma MinorTemplateVsMajorAt1()
    ensures Score(MinorProfile, 1, Major) < Score(MinorProfile, 0, Minor)
  {
  }

  /** The minor template at shift 2 in major mode. */
  lemma MinorTemplateVsMajorAt2()
    ensures Score(MinorProfile, 2, Major) < Score(MinorProfile, 0, Minor)
  {
  }

  /** The minor template at shift 3 in major mode. */
  lemma MinorTemplateVsMajorAt3()
    ensures Score(MinorProfile, 3, Major) < Score(MinorProfile, 0, Minor)
  {
  }

  /** The minor template at shift 4 in major mode. */
  lemma MinorTemplateVsMajorAt4()
    ensures Score(MinorProfile, 4, Major) < Score(MinorProfile, 0, Minor)
  {
  }

  /** The minor template at shift 5 in major mode. */
  lemma MinorTemplateVsMajorAt5()
    ensures Score(MinorProfile, 5, Major) < Score(MinorProfile, 0, Minor)
  {
  }

  /** The minor template at shift 6 in major mode. */
  lemma MinorTemplateVsMajorAt6()
    ensures Score(MinorProfile, 6, Major) < Score(MinorProfile, 0, Minor)
  {
  }

  /** The minor template at shift 7 in major mode. */
  lemma MinorTemplateVsMajorAt7()
    ensures Score(MinorProfile, 7, Major) < Score(MinorProfile, 0, Minor)
  {
  }

  /** The minor template at shift 8 in major mode. */
  lemma MinorTemplateVsMajorAt8()
    ensures Score(MinorProfile, 8, Major) < Score(MinorProfile, 0, Minor)
  {
  }

  /** The minor template at shift 9 in major mode. */
  lemma MinorTemplateVsMajorAt9()
    ensures Score(MinorProfile, 9, Major) < Score(MinorProfile, 0, Minor)
  {
  }

  /** The minor template at shift 10 in major mode. */
  lemma MinorTemplateVsMajorAt10()
    ensures Score(MinorProfile, 10, Major) < Score(MinorProfile, 0, Minor)
  {
  }

  /** The minor template at shift 11 in major mode. */
  lemma MinorTemplateVsMajorAt11()
    ensures Score(MinorProfile, 11, Major) < Score(MinorProfile, 0, Minor)
  {
  }

  /** The minor template at shift 1 in minor mode. */
  lemma MinorTemplateVsMinorAt1()
    ensures Score(MinorProfile, 1, Minor) < Score(MinorProfile, 0, Minor)
  {
  }

  /** The minor template at shift 2 in minor mode. */
  lemma MinorTemplateVsMinorAt2()
    ensures Score(MinorProfile, 2, Minor) < Score(MinorProfile, 0, Minor)
  {
  }

  /** The minor template at shift 3 in minor mode. */
  lemma MinorTemplateVsMinorAt3()
    ensures Score(MinorProfile, 3, Minor) < Score(MinorProfile, 0, Minor)
  {
  }

  /** The minor template at shift 4 in minor mode. */
  lemma MinorTemplateVsMinorAt4()
    ensures Score(MinorProfile, 4, Minor) < Score(MinorProfile, 0, Minor)
  {
  }

  /** The minor template at shift 5 in minor mode. */
  lemma MinorTemplateVsMinorAt5()
    ensures Score(MinorProfile, 5, Minor) < Score(MinorProfile, 0, Minor)
  {
  }

  /** The minor template at shift 6 in minor mode. */
  lemma MinorTemplateVsMinorAt6()
    ensures Score(MinorProfile, 6, Minor) < Score(MinorProfile, 0, Minor)
  {
  }

  /** The minor template at shift 7 in minor mode. */
  lemma MinorTemplateVsMinorAt7()
    ensures Score(MinorProfile, 7, Minor) < Score(MinorProfile, 0, Minor)
  {
  }

  /** The minor template at shift 8 in minor mode. */
  lemma MinorTemplateVsMinorAt8()
    ensures Score(MinorProfile, 8, Minor) < Score(MinorProfile, 0, Minor)
  {
  }

  /** The minor template at shift 9 in minor mode. */
  lemma MinorTemplateVsMinorAt9()
    ensures Score(MinorProfile, 9, Minor) < Score(MinorProfile, 0, Minor)
  {
  }

  /** The minor template at shift 10 in minor mode. */
  lemma MinorTemplateVsMinorAt10()
    ensures Score(MinorProfile, 10, Minor) < Score(MinorProfile, 0, Minor)
  {
  }

  /** The minor template at shift 11 in minor mode. */
  lemma MinorTemplateVsMinorAt11()
    ensures Score(MinorProfile, 11, Minor) < Score(MinorProfile, 0, Minor)
  {
  }

  /** The major template's score in major mode at any shift but 0, bounded by
      the facts above. */
  lemma MajorTemplateBeatsMajor(s: nat)
    requires 0 < s < 12
    ensures Score(MajorProfile, s, Major) < Score(MajorProfile, 0, Major)
  {
    if s == 1 {
      MajorTemplateVsMajorAt1();
    } else if s == 2 {
      MajorTemplateVsMajorAt2();
    } else if s == 3 {
      MajorTemplateVsMajorAt3();
    } else if s == 4 {
      MajorTemplateVsMajorAt4();
    } else if s == 5 {
      MajorTemplateVsMajorAt5();
    } else if s == 6 {
      MajorTemplateVsMajorAt6();
    } else if s == 7 {
      MajorTemplateVsMajorAt7();
    } else if s == 8 {
      MajorTemplateVsMajorAt8();
    } else if s == 9 {
      MajorTemplateVsMajorAt9();
    } else if s == 10 {
      MajorTemplateVsMajorAt10();
    } else {
      MajorTemplateVsMajorAt11();
    }
  }

  /** The major template's score in minor mode at any shift, bounded by
      the facts above. */
  lemma MajorTemplateBeatsMinor(s: nat)
    requires s < 12
    ensures Score(MajorProfile, s, Minor) < Score(MajorProfile, 0, Major)
  {
    if s == 0 {
      MajorTemplateVsMinorAt0();
    } else if s == 1 {
      MajorTemplateVsMinorAt1();
    } else if s == 2 {
      MajorTemplateVsMinorAt2();
    } else if s == 3 {
      MajorTemplateVsMinorAt3();
    } else if s == 4 {
      MajorTemplateVsMinorAt4();
    } else if s == 5 {
      MajorTemplateVsMinorAt5();
    } else if s == 6 {
      MajorTemplateVsMinorAt6();
    } else if s == 7 {
      MajorTemplateVsMinorAt7();
    } else if s == 8 {
      MajorTemplateVsMinorAt8();
    } else if s == 9 {
      MajorTemplateVsMinorAt9();
    } else if s == 10 {
      MajorTemplateVsMinorAt10();
    } else {
      MajorTemplateVsMinorAt11();
    }
  }

  /** The minor template's score in major mode at any shift, bounded by
      the facts above. */
  lemma MinorTemplateBeatsMajor(s: nat)
    requires s < 12
    ensures Score(MinorProfile, s, Major) < Score(MinorProfile, 0, Minor)
  {
    if s == 0 {
      MinorTemplateVsMajorAt0();
    } else if s == 1 {
      MinorTemplateVsMajorAt1();
    } else if s == 2 {
      MinorTemplateVsMajorAt2();
    } else if s == 3 {
      MinorTemplateVsMajorAt3();
    } else if s == 4 {
      MinorTemplateVsMajorAt4();
    } else if s == 5 {
      MinorTemplateVsMajorAt5();
    } else if s == 6 {
      MinorTemplateVsMajorAt6();
    } else if s == 7 {
      MinorTemplateVsMajorAt7();
    } else if s == 8 {
      MinorTemplateVsMajorAt8();
    } else if s == 9 {
      MinorTemplateVsMajorAt9();
    } else if s == 10 {
      MinorTemplateVsMajorAt10();
    } else {
      MinorTemplateVsMajorAt11();
    }
  }

  /** The minor template's score in minor mode at any shift but 0, bounded by
      the facts above. */
  lemma MinorTemplateBeatsMinor(s: nat)
    requires 0 < s < 12
    ensures Score(MinorProfile, s, Minor) < Score(MinorProfile, 0, Minor)
  {
    if s == 1 {
      MinorTemplateVsMinorAt1();
    } else if s == 2 {
      MinorTemplateVsMinorAt2();
    } else if s == 3 {
      MinorTemplateVsMinorAt3();
    } else if s == 4 {
      MinorTemplateVsMinorAt4();
    } else if s == 5 {
      MinorTemplateVsMinorAt5();
    } else if s == 6 {
      MinorTemplateVsMinorAt6();
    } else if s == 7 {
      MinorTemplateVsMinorAt7();
    } else if s == 8 {
      MinorTemplateVsMinorAt8();
    } else if s == 9 {
      MinorTemplateVsMinorAt9();
    } else if s == 10 {
      MinorTemplateVsMinorAt10();
    } else {
      MinorTemplateVsMinorAt11();
    }
  }

  /** Measured from tonic `k`, a shift is at distance zero exactly when it is
      the tonic itself. */
  lemma ShiftDistance(k: nat, s: nat)
    requires k < 12 && s < 12
    ensures (s + 12 - k) % 12 == 0 <==> s == k
  {
    var t := if s >= k then s - k else s + 12 - k;
    assert (s + 12 - k) % 12 == t;
  }

  /** Scored in major mode, the major template transposed to tonic `k` stays
      below its own key at every shift but `k`. */
  lemma TransposedMajorBeatsMajor(k: nat, s: nat)
    requires k < 12 && s < 12 && s != k
    ensures Score(Transposed(MajorProfile, k), s, Major) < Score(Transposed(MajorProfile, k), k, Major)
  {
    ScoreOfTransposed(MajorProfile, k, k, Major);
    ScoreOfTransposed(MajorProfile, k, s, Major);
    ShiftDistance(k, k);
    ShiftDistance(k, s);
    MajorTemplateBeatsMajor((s + 12 - k) % 12);
  }

  /** Scored in minor mode, the major template transposed to tonic `k` stays
      below its own key at every shift. */
  lemma TransposedMajorBeatsMinor(k: nat, s: nat)
    requires k < 12 && s < 12
    ensures Score(Transposed(MajorProfile, k), s, Minor) < Score(Transposed(MajorProfile, k), k, Major)
  {
    ScoreOfTransposed(MajorProfile, k, k, Major);
    ScoreOfTransposed(MajorProfile, k, s, Minor);
    ShiftDistance(k, k);
    ShiftDistance(k, s);
    MajorTemplateBeatsMinor((s + 12 - k) % 12);
  }

  /** The major template transposed to any tonic `k` is recognised as
      key `k` in major mode. */
  lemma TransposedMajorRecognised(k: nat)
    requires k < 12
    ensures IsBestKey(Transposed(MajorProfile, k), KeyLabel(k, Major))
  {
    var c := Transposed(MajorProfile, k);
    var top := Score(c, k, Major);
    TransposedMajorBeatsMinor(k, k);
    forall s, m | 0 <= s < 12
      ensures Score(c, s, m) <= top
      ensures s < k ==> Score(c, s, m) < top
    {
      match m
      case Major =>
        if s != k {
          TransposedMajorBeatsMajor(k, s);
        }
      case Minor =>
        TransposedMajorBeatsMinor(k, s);
    }
  }

  /** Scored in major mode, the minor template transposed to tonic `k` stays
      below its own key at every shift. */
  lemma TransposedMinorBeatsMajor(k: nat, s: nat)
    requires k < 12 && s < 12
    ensures Score(Transposed(MinorProfile, k), s, Major) < Score(Transposed(MinorProfile, k), k, Minor)
  {
    ScoreOfTransposed(MinorProfile, k, k, Minor);
    ScoreOfTransposed(MinorProfile, k, s, Major);
    ShiftDistance(k, k);
    ShiftDistance(k, s);
    MinorTemplateBeatsMajor((s + 12 - k) % 12);
  }

  /** Scored in minor mode, the minor template transposed to tonic `k` stays
      below its own key at every shift but `k`. */
  lemma TransposedMinorBeatsMinor(k: nat, s: nat)
    requires k < 12 && s < 12 && s != k
    ensures Score(Transposed(MinorProfile, k), s, Minor) < Score(Transposed(MinorProfile, k), k, Minor)
  {
    ScoreOfTransposed(MinorProfile, k, k, Minor);
    ScoreOfTransposed(MinorProfile, k, s, Minor);
    ShiftDistance(k, k);
    ShiftDistance(k, s);
    MinorTemplateBeatsMinor((s + 12 - k) % 12);
  }

  /** The minor template transposed to any tonic `k` is recognised as
      key `k` in minor mode. */
  lemma TransposedMinorRecognised(k: nat)
    requires k < 12
    ensures IsBestKey(Transposed(MinorProfile, k), KeyLabel(k, Minor))
  {
    var c := Transposed(MinorProfile, k);
    var top := Score(c, k, Minor);
    TransposedMinorBeatsMajor(k, k);
    forall s, m | 0 <= s < 12
      ensures Score(c, s, m) <= top
      ensures s < k ==> Score(c, s, m) < top
    {
      match m
      case Minor =>
        if s != k {
          TransposedMinorBeatsMinor(k, s);
        }
      case Major =>
        TransposedMinorBeatsMajor(k, s);
    }
  }

  /** A chroma vector that is a template transposed to tonic `k` is
      recognised as key `k` in the template's mode, for every `k` and both
      modes. */
  lemma TransposedTemplateRecognised(k: nat, mode: Mode)
    requires k < 12
    ensures IsBestKey(Transposed(Profile(mode), k), KeyLabel(k, mode))
  {
    match mode
    case Major => TransposedMajorRecognised(k);
    case Minor => TransposedMinorRecognised(k);
  }
}
