/**
 * The demo forecast strip of `afficherPrevisionsDemo`: eight fixed entries,
 * each rendered as a card whose time label is the hour zero-padded to two
 * digits and followed by 'h'.
 */
module Forecast {
  import opened Optional

  /** One entry of the fixed forecast table. */
  datatype Entry = Entry(hour: int, temp: real, wind: real, waves: real, icon: string)

  /** The table the page always shows. */
  const DemoForecast: seq<Entry> := [
    Entry(14, 16.0, 12.0, 1.2, "fa-cloud-sun"),
    Entry(17, 15.0, 14.0, 1.4, "fa-cloud"),
    Entry(20, 14.0, 16.0, 1.6, "fa-wind"),
    Entry(23, 13.0, 18.0, 1.8, "fa-wind"),
    Entry(2, 12.0, 20.0, 2.0, "fa-cloud"),
    Entry(5, 12.0, 19.0, 1.9, "fa-cloud-sun"),
    Entry(8, 14.0, 15.0, 1.5, "fa-sun"),
    Entry(11, 16.0, 13.0, 1.3, "fa-sun")
  ]

  /** A rendered forecast card. */
  datatype ForecastCard = ForecastCard(time: string, icon: string, temp: real, wind: real, waves: real)

  predicate IsDigit(c: char) {
    '0' <= c <= '9'
  }

  predicate AllDigits(s: string) {
    forall i :: 0 <= i < |s| ==> IsDigit(s[i])
  }

  /** The decimal digits of `n`, most significant first, without leading zeros. */
  function Digits(n: nat): (s: string)
    ensures |s| >= 1 && AllDigits(s)
    ensures n < 10 <==> |s| == 1
    ensures 10 <= n < 100 <==> |s| == 2
  {
    if n < 10 then ['0' + n as char] else Digits(n / 10) + ['0' + (n % 10) as char]
  }

  /**
   * JavaScript's string conversion of an integer of magnitude below 10^21;
   * JavaScript writes larger ones in exponent form, which is not modelled.
   */
  function NumberToString(n: int): string {
    if n < 0 then "-" + Digits(-n) else Digits(n)
  }

  /** The value of a string of decimal digits. */
  function DigitsValue(s: string): nat
    requires AllDigits(s)
  {
    if s == [] then 0 else 10 * DigitsValue(s[..|s| - 1]) + (s[|s| - 1] - '0') as nat
  }

  /** The time label of a forecast card: `'0' + h + 'h'` below 10, else `h + 'h'`. */
  function HourLabel(h: int): (s: string)
    ensures |s| >= 2 && s[|s| - 1] == 'h'
    ensures h < 10 ==> s[0] == '0'
  {
    if h < 10 then "0" + NumberToString(h) + "h" else NumberToString(h) + "h"
  }

  /** Reads a label back: digits followed by 'h'. */
  function ParseHourLabel(s: string): Option<nat> {
    if |s| >= 2 && s[|s| - 1] == 'h' && AllDigits(s[..|s| - 1])
    then Some(DigitsValue(s[..|s| - 1]))
    else None
  }

  lemma {:induction false} DigitsRoundTrip(n: nat)
    ensures DigitsValue(Digits(n)) == n
    decreases n
  {
    if n >= 10 {
      DigitsRoundTrip(n / 10);
      var s := Digits(n);
      assert s[..|s| - 1] == Digits(n / 10);
    }
  }

  /** A leading '0' does not change the value of a digit string. */
  lemma {:induction false} LeadingZero(s: string)
    requires AllDigits(s)
    ensures AllDigits("0" + s) && DigitsValue("0" + s) == DigitsValue(s)
    decreases |s|
  {
    if s != [] {
      var t := s[..|s| - 1];
      LeadingZero(t);
      assert ("0" + s)[..|"0" + s| - 1] == "0" + t;
    }
  }

  /**
   * Every non-negative hour reads back from its label, so distinct hours get
   * distinct labels; and an hour of the day always gets a two-digit label.
   * The labels agree with the page's for hours below 10^21.
   */
  lemma {:induction false} HourLabelRoundTrip(h: int)
    requires h >= 0
    ensures ParseHourLabel(HourLabel(h)) == Some(h)
    ensures h < 100 ==> |HourLabel(h)| == 3
  {
    var s := HourLabel(h);
    DigitsRoundTrip(h);
    if h < 10 {
      LeadingZero(Digits(h));
      assert s[..|s| - 1] == "0" + Digits(h);
    } else {
      assert s[..|s| - 1] == Digits(h);
    }
  }

  /** The card for one entry. */
  function CardOf(e: Entry): ForecastCard {
    ForecastCard(HourLabel(e.hour), e.icon, e.temp, e.wind, e.waves)
  }

  /** Renders the entries, one card per entry and in the same order. */
  method Render(entries: seq<Entry>) returns (cards: seq<ForecastCard>)
    ensures |cards| == |entries|
    ensures forall i :: 0 <= i < |entries| ==> cards[i] == CardOf(entries[i])
  {
    cards := [];
    var i := 0;
    while i < |entries|
      invariant 0 <= i <= |entries|
      invariant |cards| == i
      invariant forall k :: 0 <= k < i ==> cards[k] == CardOf(entries[k])
    {
      cards := cards + [CardOf(entries[i])];
      i := i + 1;
    }
  }

  /** The demo strip's labels, in the order they are shown. */
  lemma DemoForecastLabels()
    ensures |DemoForecast| == 8
    ensures forall i :: 0 <= i < 8 ==>
              HourLabel(DemoForecast[i].hour) == ["14h", "17h", "20h", "23h", "02h", "05h", "08h", "11h"][i]
  {
    assert Digits(14) == "14" && Digits(17) == "17" && Digits(20) == "20" && Digits(23) == "23";
    assert Digits(11) == "11";
  }
}
