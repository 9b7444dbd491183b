/** Facts about the stripped and upper-cased forms of the fixed texts the
    rules compare with. */
module TextFacts {
  import opened Text

  lemma StripLiveSalt()
    ensures Strip("Live Salt") == "Live Salt"
  {
    StripUnchanged("Live Salt");
  }

  lemma StripAcceptableDiamond()
    ensures Strip("Acceptable Diamond Label") == "Acceptable Diamond Label"
  {
    StripUnchanged("Acceptable Diamond Label");
  }

  lemma StripBogusLabel()
    ensures Strip("Bogus Label") == "Bogus Label"
  {
    StripUnchanged("Bogus Label");
  }

  lemma StripA()
    ensures Strip("A") == "A"
  {
    StripUnchanged("A");
  }

  lemma StripUR()
    ensures Strip("U/R") == "U/R"
  {
    StripUnchanged("U/R");
  }

  lemma StripU()
    ensures Strip("U") == "U"
  {
    StripUnchanged("U");
  }

  lemma UpperStripA()
    ensures Upper(Strip("A")) == "A"
  {
    UpperStripUnchanged("A");
  }

  lemma UpperStripUR()
    ensures Upper(Strip("U/R")) == "U/R"
  {
    UpperStripUnchanged("U/R");
  }

  /** The second live SALT label of the source ends in a space, which
      stripping removes. */
  lemma StripHazMatLabel()
    ensures Strip("Un-audited HazMat Package ") == "Un-audited HazMat Package"
  {
    assert "Un-audited HazMat Package " == "Un-audited HazMat Package" + [' '];
    StripTrailingSpace("Un-audited HazMat Package", ' ');
  }

  lemma StripOtherFireworks()
    ensures Strip("Other Fireworks") == "Other Fireworks"
  {
    StripUnchanged("Other Fireworks");
  }
}
