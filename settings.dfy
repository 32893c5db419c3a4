/** The settings screen: the total focus time as hours and minutes, and the reset confirmation. */
module Settings {
  import opened Basics
  import opened Text
  import opened Models

  /** `formatTime(minutes:)`: "<h>h <m>m" once there is a whole hour, otherwise "<m>m", with Swift's
      truncating `/` and `%`. */
  function FormatTime(minutes: int): (s: string)
    ensures |s| >= 2 && s[|s| - 1] == 'm'
    ensures 'h' in s <==> minutes >= 60
  {
    var sp := SplitBySixty(minutes);
    if sp.whole > 0 then
      var hours := IntToString(sp.whole);
      var s := hours + "h " + IntToString(sp.rest) + "m";
      assert s[|hours|] == 'h';
      s
    else
      var rest := IntToString(sp.rest);
      assert forall i :: 0 <= i < |rest| ==> rest[i] == '-' || '0' <= rest[i] <= '9';
      rest + "m"
  }

  /** For a non-negative total the text is the hours and the minutes past the hour, in decimal. */
  lemma FormatTimeShape(minutes: nat)
    ensures minutes >= 60 ==>
      FormatTime(minutes) == NatToString(minutes / 60) + "h " + NatToString(minutes % 60) + "m"
    ensures minutes < 60 ==> FormatTime(minutes) == NatToString(minutes) + "m"
  {
    SplitBySixtyUnique(minutes, minutes / 60, minutes % 60);
  }

  /** An hours-and-minutes text determines both of its digit runs. */
  lemma HoursTextSplits(ha: string, ra: string, hb: string, rb: string)
    requires IsDigits(ha) && IsDigits(hb)
    requires ha + "h " + ra + "m" == hb + "h " + rb + "m"
    ensures ha == hb && ra == rb
  {
    var xa, xb := " " + ra + "m", " " + rb + "m";
    assert ha + "h " + ra + "m" == ha + ['h'] + xa;
    assert hb + "h " + rb + "m" == hb + ['h'] + xb;
    SplitAfterDigits(ha, xa, hb, xb, 'h');
    assert ra == xa[1..|xa| - 1] && rb == xb[1..|xb| - 1];
  }

  /** The hours-and-minutes text determines both numbers. */
  lemma HoursTextInjective(h1: nat, r1: nat, h2: nat, r2: nat)
    requires NatToString(h1) + "h " + NatToString(r1) + "m" == NatToString(h2) + "h " + NatToString(r2) + "m"
    ensures h1 == h2 && r1 == r2
  {
    HoursTextSplits(NatToString(h1), NatToString(r1), NatToString(h2), NatToString(r2));
    NatToStringInjective(h1, h2);
    NatToStringInjective(r1, r2);
  }

  /** Different non-negative totals read differently. */
  lemma FormatTimeInjective(a: nat, b: nat)
    requires FormatTime(a) == FormatTime(b)
    ensures a == b
  {
    FormatTimeShape(a);
    FormatTimeShape(b);
    if a >= 60 && b >= 60 {
      HoursTextInjective(a / 60, a % 60, b / 60, b % 60);
    } else if a < 60 && b < 60 {
      var s := FormatTime(a);
      assert NatToString(a) == s[..|s| - 1] == NatToString(b);
      NatToStringInjective(a, b);
    }
  }

  /** For a negative total the hours are dropped: -65 minutes reads like -5 minutes. */
  lemma NegativeTotalsDropHours()
    ensures FormatTime(-65) == FormatTime(-5) == "-5m"
  {
    assert SplitBySixty(-65) == Split(-1, -5);
    assert SplitBySixty(-5) == Split(0, -5);
    assert NatToString(5) == "5";
  }

  /** The reset confirmation: only the destructive button resets the progress. */
  method RespondToResetAlert(appData: AppData, choice: AlertChoice)
    modifies appData
    ensures choice == Cancel ==> appData.State() == old(appData.State()) && appData.defaults == old(appData.defaults)
    ensures choice == Destructive ==>
      appData.State() == AfterReset(old(appData.State()))
      && appData.defaults == Save(old(appData.defaults), appData.State())
  {
    if choice == Destructive {
      appData.ResetProgress();
    }
  }
}
