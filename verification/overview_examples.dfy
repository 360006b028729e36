/**
 * A concrete overview page: the total-visits block read end to end.
 */
module OverviewExamples {
  import opened Wrappers
  import opened Text
  import opened Patterns
  import opened Lookup
  import opened OverviewFields

  /** The total-visits block: the heading, a volume, and the change from last month. */
  const VisitsBlock: seq<string> := ["总访问量", "5.2M", "+3.1% 自上个月"]

  /** `+3.1%` is matched where the line starts, right before " 自上个月". */
  lemma ChangeLineMatch()
    ensures MatchAt(MonthlyChange, "+3.1% 自上个月", 0) == Some(5)
  {
    var s := "+3.1% 自上个月";
    assert RunEnd(NumChars, s, 1) == 4 by {
      assert In(NumChars, s[1]) && In(NumChars, s[2]) && In(NumChars, s[3]) && !In(NumChars, s[4]);
      assert RunEnd(NumChars, s, 4) == 4;
    }
    assert PercentAt(s, 1) == Some(5);
    assert SignedPercentAt(s, 0) == Some(5);
    assert RunEnd(Spaces, s, 5) == 6 by {
      assert IsSpace(s[5]) && !IsSpace(s[6]);
      assert RunEnd(Spaces, s, 6) == 6;
    }
    assert s[6..10] == "自上个月";
  }

  /**
   * The visits block yields the volume as total visits and the signed
   * percentage before "自上个月" as the change.
   */
  lemma VisitsExample()
    ensures TotalVisits(VisitsBlock) == "5.2M"
    ensures TotalVisitsChange(VisitsBlock) == "+3.1%"
  {
    VisitsVolume();
    VisitsChange();
  }

  /** The heading is the first line and the window holds the two lines below it. */
  lemma VisitsWindow()
    ensures VisitsAnchor(VisitsBlock) == 0 && WindowEnd(VisitsBlock, 0, 4) == 3
  {
    assert FindExactLine(VisitsBlock, "总访问量", 0) == 0;
  }

  lemma VisitsVolume()
    ensures TotalVisits(VisitsBlock) == "5.2M"
  {
    var lines := VisitsBlock;
    VisitsWindow();
    assert IsVolume(lines[1]) by {
      assert AllIn(NumChars, lines[1][..3]) by {
        assert lines[1][..3] == "5.2";
      }
    }
    assert !IsVolume(lines[2]);
    assert LastLineWhere(lines, 1, 3, IsVolume) == 1 by {
      LastLineStep(lines, 1, 2, IsVolume);
      LastLineStep(lines, 1, 1, IsVolume);
    }
  }

  lemma VisitsChange()
    ensures TotalVisitsChange(VisitsBlock) == "+3.1%"
  {
    var lines := VisitsBlock;
    VisitsWindow();
    ChangeLineMatch();
    assert Search(MonthlyChange, lines[2], 0) == Some(Hit(0, 5));
    assert lines[2][0..5] == "+3.1%";
    assert Find(MonthlyChange, lines[2]) == Some("+3.1%");
    assert HasMonthlyChange(lines[2]) by {
      FindMatches(MonthlyChange, lines[2]);
    }
    TotalVisitsChangeIsLast(lines, 0);
  }
}
