/** The date strings of livescore.js: `formatMatchDate`, which turns the
    feed's `YYYYMMDDhhmmss` timestamps into `DD.MM.YY`, and the `date`
    label of the tomorrow file, which rewrites the last two digits of
    today's `YYYY-MM-DD` date. The clock itself is a parameter. */
module MatchDate {
  import opened Wrappers
  import opened JsText
  import opened JsValue

  /** `formatMatchDate`: absent or shorter than eight characters gives
      "unknown"; otherwise day, month and two-digit year, dot-separated,
      taken from positions 6..8, 4..6 and 2..4. */
  function FormatMatchDate(dateString: Option<string>): (r: string)
    ensures |r| == 8 || r == Unknown
  {
    if dateString.None? || |dateString.value| < 8 then Unknown
    else
      var s := dateString.value;
      s[6..8] + "." + s[4..6] + "." + s[2..4]
  }

  /** The input is accepted exactly when it is present and has at least
      eight characters; "unknown" is never a formatted date. */
  lemma FormatMatchDateUnknown(dateString: Option<string>)
    ensures FormatMatchDate(dateString) == Unknown
        <==> dateString.None? || |dateString.value| < 8
  {
  }

  /** A formatted date has dots at indices 2 and 5 and carries the day,
      month and year digits of the timestamp. */
  lemma FormatMatchDateFields(s: string)
    requires |s| >= 8
    ensures var r := FormatMatchDate(Some(s));
      && |r| == 8 && r[2] == '.' && r[5] == '.'
      && r[..2] == s[6..8] && r[3..5] == s[4..6] && r[6..] == s[2..4]
  {
    var r := FormatMatchDate(Some(s));
    assert r == s[6..8] + "." + s[4..6] + "." + s[2..4];
  }

  /** Everything after the first eight characters (the time of day) is
      ignored. */
  lemma FormatMatchDateIgnoresTime(day: string, time: string)
    requires |day| == 8
    ensures FormatMatchDate(Some(day + time)) == FormatMatchDate(Some(day))
  {
    var s := day + time;
    assert s[6..8] == day[6..8] && s[4..6] == day[4..6] && s[2..4] == day[2..4];
  }

  /** The inverse direction: the day, month and year fields read back out
      of a formatted date rebuild the timestamp's first eight characters,
      given its century. */
  function Unformat(r: string, century: string): (s: string)
    requires |r| == 8 && |century| == 2
    ensures |s| == 8
  {
    century + r[6..] + r[3..5] + r[..2]
  }

  lemma UnformatFormat(s: string)
    requires |s| >= 8
    ensures Unformat(FormatMatchDate(Some(s)), s[..2]) == s[..8]
  {
    FormatMatchDateFields(s);
    var r := FormatMatchDate(Some(s));
    assert Unformat(r, s[..2]) == s[..2] + s[2..4] + s[4..6] + s[6..8];
    assert s[..8] == s[..2] + s[2..4] + s[4..6] + s[6..8];
  }

  /** Whether `/\d{2}$/` matches: the string ends in two digits. */
  predicate EndsInTwoDigits(s: string) {
    |s| >= 2 && IsDigit(s[|s| - 2]) && IsDigit(s[|s| - 1])
  }

  /** `today.replace(/\d{2}$/, String(parseInt(today.slice(-2)) + 1))`:
      the last two digits become the decimal numeral of their value plus
      one, unpadded; without two final digits nothing is replaced. */
  function TomorrowLabel(today: string): (r: string)
    ensures !EndsInTwoDigits(today) ==> r == today
  {
    if EndsInTwoDigits(today) then
      var day := today[|today| - 2..];
      assert AllDigits(day) by {
        assert day[0] == today[|today| - 2] && day[1] == today[|today| - 1];
      }
      today[..|today| - 2] + NatToString(DigitsValue(day) + 1)
    else today
  }

  /** The rewrite keeps everything before the day, and what follows is
      the numeral of the day's value plus one: no zero padding and no
      rollover into the next month. */
  lemma TomorrowLabelDay(prefix: string, d1: char, d2: char)
    requires IsDigit(d1) && IsDigit(d2)
    ensures var r := TomorrowLabel(prefix + [d1, d2]);
      && |prefix| < |r|
      && r[..|prefix|] == prefix
      && AllDigits(r[|prefix|..])
      && DigitsValue(r[|prefix|..]) == 10 * DigitValue(d1) + DigitValue(d2) + 1
  {
    var s := prefix + [d1, d2];
    var day := s[|s| - 2..];
    assert day == [d1, d2];
    assert day[..1] == [d1];
    assert [d1][..0] == [];
    assert DigitsValue([d1]) == DigitValue(d1);
    assert DigitsValue(day) == 10 * DigitValue(d1) + DigitValue(d2);
    assert s[..|s| - 2] == prefix;
    var n := NatToString(DigitsValue(day) + 1);
    var r := TomorrowLabel(s);
    assert r == prefix + n;
    assert r[|prefix|..] == n;
  }

  /** Day 05 becomes "6", not "06". */
  lemma TomorrowUnpadded()
    ensures TomorrowLabel("2025-06-05") == "2025-06-6"
  {
    var s := "2025-06-05";
    assert s[|s| - 2..] == "05";
    assert DigitsValue("05") == 5 by { assert "05"[..1] == "0"; assert "0"[..0] == []; }
    assert NatToString(6) == "6";
  }

  /** Day 31 becomes "32": the month does not roll over. */
  lemma TomorrowNoRollover()
    ensures TomorrowLabel("2025-05-31") == "2025-05-32"
  {
    var s := "2025-05-31";
    assert s[|s| - 2..] == "31";
    assert DigitsValue("31") == 31 by { assert "31"[..1] == "3"; assert "3"[..0] == []; }
    assert NatToString(3) == "3";
    assert NatToString(32) == "3" + "2";
  }

  /** The `date` field of the scraped data: today's date for the today
      run, the rewritten label for the tomorrow run. */
  function DateField(dateLabel: string, today: string): (r: string)
    ensures dateLabel == "today" ==> r == today
    ensures dateLabel != "today" ==> r == TomorrowLabel(today)
  {
    if dateLabel == "today" then today else TomorrowLabel(today)
  }

  /** The `date` field is today's date for the today run and for a date
      without two final digits; otherwise it keeps everything but the last
      two characters, which become the digits of their value plus one. */
  lemma DateFieldSpec(dateLabel: string, today: string)
    ensures var r := DateField(dateLabel, today);
      && (dateLabel == "today" || !EndsInTwoDigits(today) ==> r == today)
      && (dateLabel != "today" && EndsInTwoDigits(today) ==>
            var n := |today| - 2;
            && n < |r| && r[..n] == today[..n]
            && AllDigits(today[n..]) && AllDigits(r[n..])
            && DigitsValue(r[n..]) == DigitsValue(today[n..]) + 1)
  {
    if dateLabel != "today" && EndsInTwoDigits(today) {
      var n := |today| - 2;
      var d1, d2 := today[n], today[n + 1];
      assert today == today[..n] + [d1, d2];
      TomorrowLabelDay(today[..n], d1, d2);
      var day := today[n..];
      assert day == [d1, d2];
      assert day[..1] == [d1];
      assert [d1][..0] == [];
      assert DigitsValue(day) == 10 * DigitValue(d1) + DigitValue(d2);
    }
  }
}
