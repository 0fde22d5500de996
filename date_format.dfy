/** `formatDateDMY`: the display form of a `YYYY-MM-DD` date. */
module DateFormat {
  import opened Js
  import opened Calendar

  /** Element `i` of a destructured array, as a template literal prints it:
      a missing element is `undefined`. */
  function Shown(parts: seq<string>, i: nat): string
  {
    if i < |parts| then parts[i] else "undefined"
  }

  /** `formatDateDMY(isoDate)`: `"--"` for null or the empty string; otherwise
      the first three dash-separated parts, last one first. */
  function FormatDateDMY(isoDate: Option<string>): (r: string)
    ensures isoDate == None || isoDate == Some("") ==> r == "--"
  {
    if isoDate.None? || isoDate.value == "" then "--"
    else
      var parts := Split(isoDate.value, '-');
      Shown(parts, 2) + "-" + Shown(parts, 1) + "-" + Shown(parts, 0)
  }

  /** Input `a-b-c` gives `c-b-a`. */
  lemma {:induction false} FormatThreeParts(a: string, b: string, c: string)
    requires '-' !in a && '-' !in b && '-' !in c
    ensures FormatDateDMY(Some(a + "-" + b + "-" + c)) == c + "-" + b + "-" + a
  {
    SplitThree(a, b, c, '-');
  }

  /** Parts after the third are dropped: `a-b-c-rest` gives `c-b-a`. */
  lemma {:induction false} FormatIgnoresExtraParts(a: string, b: string, c: string, rest: string)
    requires '-' !in a && '-' !in b && '-' !in c
    ensures FormatDateDMY(Some(a + "-" + b + "-" + c + "-" + rest)) == c + "-" + b + "-" + a
  {
    var tail := Split(rest, '-');
    var parts := [a, b, c] + tail;
    assert Join(parts, '-') == a + "-" + b + "-" + c + "-" + rest by {
      assert parts[1..] == [b, c] + tail;
      assert ([b, c] + tail)[1..] == [c] + tail;
      assert ([c] + tail)[1..] == tail;
      assert Join([c] + tail, '-') == c + "-" + rest;
      assert Join([b, c] + tail, '-') == b + "-" + c + "-" + rest;
    }
    forall k | 0 <= k < |parts| ensures '-' !in parts[k] {
      if k >= 3 { assert parts[k] == tail[k - 3]; }
    }
    SplitJoin(parts, '-');
  }

  /** A string with only one dash, `a-b`, shows its missing third part as `undefined`. */
  lemma {:induction false} FormatTwoParts(a: string, b: string)
    requires '-' !in a && '-' !in b
    ensures FormatDateDMY(Some(a + "-" + b)) == "undefined-" + b + "-" + a
  {
    assert Join([a, b], '-') == a + "-" + b by {
      assert [a, b][1..] == [b];
    }
    SplitJoin([a, b], '-');
  }

  /** On strings of exactly three dash-separated parts the function undoes itself. */
  lemma {:induction false} FormatInvolution(s: string)
    requires |Split(s, '-')| == 3
    ensures FormatDateDMY(Some(FormatDateDMY(Some(s)))) == s
  {
    var p := Split(s, '-');
    var a, b, c := p[0], p[1], p[2];
    assert s == a + "-" + b + "-" + c by {
      assert p[1..] == [b, c];
      assert p[1..][1..] == [c];
    }
    FormatThreeParts(a, b, c);
    FormatThreeParts(c, b, a);
  }

  /** A date built by the booking pages is shown as `DD-MM-YYYY`: the same
      fields, day first; for a four-digit year that is ten characters. */
  lemma {:induction false} FormatIsoDate(d: CalendarDate)
    requires ValidDate(d) && 0 <= d.year
    ensures FormatDateDMY(Some(IsoDate(d)))
      == PadStart2(IntToString(d.day)) + "-" + PadStart2(IntToString(d.month)) + "-" + IntToString(d.year)
    ensures 1000 <= d.year <= 9999 ==> |FormatDateDMY(Some(IsoDate(d)))| == 10
  {
    var y := NatToString(d.year);
    var m := PadStart2(NatToString(d.month));
    var dd := PadStart2(NatToString(d.day));
    TwoDigits(d.month);
    TwoDigits(d.day);
    DigitsExclude(y, '-');
    DigitsExclude(m, '-');
    DigitsExclude(dd, '-');
    assert IsoDate(d) == y + "-" + m + "-" + dd;
    FormatThreeParts(y, m, dd);
    if 1000 <= d.year <= 9999 {
      FourDigits(d.year);
    }
  }
}
