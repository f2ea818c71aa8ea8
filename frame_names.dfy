/** The file name of each frame (index.js:31-33): "Mob" + pad(i, 3) + ".jpg". */
module FrameNames {
  import opened Config
  import opened Padding

  function FrameName(i: nat): string {
    Prefix + Padded(i, IndexWidth) + Extension
  }

  /** Every frame index of the sequence names a file "Mob", three digits
      denoting the index, ".jpg". */
  lemma FrameNameShape(i: nat)
    requires i < TotalFrames
    ensures |FrameName(i)| == 10
    ensures FrameName(i)[..3] == "Mob" && FrameName(i)[6..] == ".jpg"
    ensures AllDigits(FrameName(i)[3..6]) && Value(FrameName(i)[3..6]) == i
  {
    DecimalLength(i, 3);
    var name := FrameName(i);
    assert name[3..6] == Padded(i, IndexWidth);
    PaddedValue(i, IndexWidth);
  }

  /** Distinct frame indices never share a file name. */
  lemma FrameNameInjective(i: nat, j: nat)
    requires FrameName(i) == FrameName(j)
    ensures i == j
  {
    var a, b := FrameName(i), FrameName(j);
    assert a[3..|a| - 4] == Padded(i, IndexWidth);
    assert b[3..|b| - 4] == Padded(j, IndexWidth);
    PaddedValue(i, IndexWidth);
    PaddedValue(j, IndexWidth);
  }

  lemma FrameNameExamples()
    ensures FrameName(0) == "Mob000.jpg"
    ensures FrameName(7) == "Mob007.jpg"
    ensures FrameName(662) == "Mob662.jpg"
  {
    PaddedExamples();
    NameOfDigits(0, "000");
    NameOfDigits(7, "007");
    NameOfDigits(662, "662");
    SpelledNames();
  }

  /** The three-digit fields of the examples above. */
  lemma PaddedExamples()
    ensures Padded(0, IndexWidth) == "000"
    ensures Padded(7, IndexWidth) == "007"
    ensures Padded(662, IndexWidth) == "662"
  {
    assert Decimal(7) == "7";
    assert Decimal(662) == "662" by {
      assert Decimal(66) == "66";
    }
    assert Zeros(2) == "00";
    assert Zeros(0) == "";
  }

  /** The names of the examples above, spelled out. */
  lemma SpelledNames()
    ensures Prefix + "000" + Extension == "Mob000.jpg"
    ensures Prefix + "007" + Extension == "Mob007.jpg"
    ensures Prefix + "662" + Extension == "Mob662.jpg"
  {
  }

  lemma NameOfDigits(i: nat, digits: string)
    requires Padded(i, IndexWidth) == digits
    ensures FrameName(i) == Prefix + digits + Extension
  {
  }
}
