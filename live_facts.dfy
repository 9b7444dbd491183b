/** What the live SALT check of the validator does, for the comment rule as
    meant and as written. */
module LiveSaltFacts {
  import opened Wrappers
  import opened Text
  import opened TextFacts
  import opened Patterns
  import opened Grid
  import opened SaltRecords
  import opened Week
  import opened ValidatorRules

  /** Lowered text never equals a string that starts with a capital. */
  lemma LowerNotInCapitalised(s: string, list: seq<string>)
    requires forall k :: 0 <= k < |list| ==> |list[k]| > 0 && IsUpperAscii(list[k][0])
    ensures Lower(s) !in list
  {
  }

  /** None of the listed SALT types is in lower case, so the source's test
      `salt_type.lower() not in` the list always holds and every live SALT
      comment is flagged. */
  lemma LiveCommentAlwaysFlaggedAsWritten(comment: string)
    ensures LiveCommentFlaggedAsWritten(comment) == Returns(true)
  {
    assert forall k :: 0 <= k < |LiveSaltTypes| ==> |LiveSaltTypes[k]| > 0 && IsUpperAscii(LiveSaltTypes[k][0]);
    LowerNotInCapitalised(Strip(comment), LiveSaltTypes);
  }

  lemma LiveSaltCategory()
    ensures CategoryIs(Some(Text("Live Salt")), "live salt")
  {
    StripLiveSalt();
    assert Lower("Live Salt") == "live salt";
  }

  lemma AcceptableDiamondListed()
    ensures LiveCommentValid("Acceptable Diamond Label")
  {
    StripAcceptableDiamond();
    assert AcceptedLiveSaltTypes[7] == "Acceptable Diamond Label";
  }

  lemma BogusLabelUnlisted()
    ensures !LiveCommentValid("Bogus Label") && Strip("Bogus Label") == "Bogus Label"
  {
    StripBogusLabel();
    assert "Bogus Label" !in AcceptedLiveSaltTypes;
    assert MatchAt(OtherSaltType, "Bogus Label", 0).None?;
  }

  /** A listed live SALT type with result `A` draws no finding. */
  lemma {:induction false} LiveAcceptableDiamond(e: Employee, cells: Entry<Coord>)
    ensures var values := Entry(Some(Text("Live Salt")), Some(Text("A")), Some(Text("Acceptable Diamond Label")));
            LiveSaltReport(e, cells, values) == Report([], false)
  {
    LiveSaltCategory();
    LiveSaltOfTexts(e, cells, "Live Salt", "Acceptable Diamond Label", "A");
    AcceptableDiamondListed();
    LiveResultOfA(e, cells.result);
  }

  /** An unlisted type with result `U` draws two findings: an invalid SALT
      type on the comment cell, and the `U/A` hint on the result cell. */
  lemma {:induction false} LiveBogusLabel(e: Employee, cells: Entry<Coord>)
    ensures var values := Entry(Some(Text("Live Salt")), Some(Text("U")), Some(Text("Bogus Label")));
            LiveSaltReport(e, cells, values)
            == Report([Finding(e, cells.comment, InvalidSaltType("Bogus Label")), Finding(e, cells.result, LiveResultU)], false)
  {
    LiveSaltCategory();
    LiveSaltOfTexts(e, cells, "Live Salt", "Bogus Label", "U");
    BogusLabelUnlisted();
    LiveResultOfU(e, cells.result);
  }

  lemma LiveResultOfA(e: Employee, cell: Coord)
    ensures LiveResultFindings(e, cell, "A") == []
  {
    StripA();
  }

  lemma LiveResultOfU(e: Employee, cell: Coord)
    ensures LiveResultFindings(e, cell, "U") == [Finding(e, cell, LiveResultU)]
  {
    StripU();
  }

  /** `check_live_salt` on a live SALT row whose cells all hold text. */
  lemma LiveSaltOfTexts(e: Employee, cells: Entry<Coord>, cat: string, comment: string, result: string)
    requires CategoryIs(Some(Text(cat)), "live salt")
    ensures LiveSaltReport(e, cells, Entry(Some(Text(cat)), Some(Text(result)), Some(Text(comment))))
            == Report((if LiveCommentValid(comment) then [] else [Finding(e, cells.comment, InvalidSaltType(Strip(comment)))])
                      + LiveResultFindings(e, cells.result, result), false)
  {
  }

  /** The source lists `Un-audited HazMat Package ` with a trailing space,
      but compares the list with stripped text, whose last character is
      never a space: as written, that label is never accepted. */
  lemma HazMatLabelNeverListed(comment: string)
    ensures Strip(comment) != LiveSaltTypes[1]
  {
    assert LiveSaltTypes[1][|LiveSaltTypes[1]| - 1] == ' ';
  }

  /** The list as meant is the source's list with the one label that no
      stripped text can equal replaced by that label stripped. */
  lemma AcceptedAsListed(s: string)
    ensures s in AcceptedLiveSaltTypes
            <==> (s in LiveSaltTypes && s != LiveSaltTypes[1]) || s == "Un-audited HazMat Package"
  {
    if s in AcceptedLiveSaltTypes {
      var k :| 0 <= k < |AcceptedLiveSaltTypes| && AcceptedLiveSaltTypes[k] == s;
      if k != 1 {
        assert LiveSaltTypes[k] == s;
        assert LiveSaltTypes[1] != s by { assert |LiveSaltTypes[1]| != |AcceptedLiveSaltTypes[1]|; }
      }
    }
    if s in LiveSaltTypes && s != LiveSaltTypes[1] {
      var k :| 0 <= k < |LiveSaltTypes| && LiveSaltTypes[k] == s;
      assert AcceptedLiveSaltTypes[k] == s;
    }
    assert AcceptedLiveSaltTypes[1] == "Un-audited HazMat Package";
  }

  /** The live SALT comment rule as meant accepts every comment whose
      stripped text is on the source's list. */
  lemma ListedCommentsAccepted(comment: string)
    requires Strip(comment) in LiveSaltTypes
    ensures LiveCommentValid(comment)
  {
    HazMatLabelNeverListed(comment);
    AcceptedAsListed(Strip(comment));
  }

  /** The label typed exactly as the source lists it: the week's comment
      rule as written raises on it. */
  lemma HazMatLabelAsWritten()
    ensures LiveCommentVerdictAsWritten("Un-audited HazMat Package ") == Raises
  {
    StripHazMatLabel();
    assert "Un-audited HazMat Package" !in LiveSaltTypes;
  }

  /** The rule as meant accepts that label. */
  lemma HazMatLabelAccepted()
    ensures LiveCommentValid("Un-audited HazMat Package ")
  {
    StripHazMatLabel();
    assert AcceptedLiveSaltTypes[1] == "Un-audited HazMat Package";
  }

  /** The validator's live SALT check, with the list as meant, passes that
      label with result `A`. */
  lemma {:induction false} LiveHazMatLabel(e: Employee, cells: Entry<Coord>)
    ensures var values := Entry(Some(Text("Live Salt")), Some(Text("A")), Some(Text("Un-audited HazMat Package ")));
            LiveSaltReport(e, cells, values) == Report([], false)
  {
    LiveSaltCategory();
    LiveSaltOfTexts(e, cells, "Live Salt", "Un-audited HazMat Package ", "A");
    HazMatLabelAccepted();
    LiveResultOfA(e, cells.result);
  }

  /** A comment of the `Other` form: the week's comment rule as written
      raises on it, since its pattern test has no subject. */
  lemma OtherTypeAsWritten()
    ensures LiveCommentVerdictAsWritten("Other Fireworks") == Raises
  {
    StripOtherFireworks();
    assert "Other Fireworks" !in LiveSaltTypes;
  }

  /** The rule as meant accepts it through the `Other` pattern. */
  lemma OtherTypeAccepted()
    ensures LiveCommentValid("Other Fireworks")
  {
    StripOtherFireworks();
    var s := "Other Fireworks";
    assert s[1..6] == "ther " && IsNameChar(s[6]) && IsNameOrSpace(s[7]);
    assert MatchAt(OtherSaltType, s, 0).Some?;
  }
}
