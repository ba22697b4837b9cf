/**
 * The service picker: how a duration in minutes is written on a card
 * (`45 min`, `2h`, `1h 30min`) and which card is marked as chosen. Prices
 * go through the platform's currency formatter, which is not modelled.
 */
module ServiceSelector {
  import opened Wrappers
  import opened Text

  /** A service as the picker receives it. */
  datatype Service = Service(id: int, name: string, description: string, price: real, durationMinutes: int)

  /** `formatDuration(minutes)`. */
  function FormatDuration(minutes: int): (r: string)
    ensures minutes < 60 ==> |r| >= 4 && r[|r| - 4..] == " min"
    ensures minutes >= 60 ==> 'h' in r
    ensures minutes >= 60 && minutes % 60 == 0 ==> r[|r| - 1] == 'h'
    ensures minutes >= 60 && minutes % 60 != 0 ==> |r| >= 3 && r[|r| - 3..] == "min"
  {
    if minutes < 60 then IntToString(minutes) + " min"
    else
      var hours := minutes / 60;
      var remainingMinutes := minutes % 60;
      if remainingMinutes > 0 then IntToString(hours) + "h " + IntToString(remainingMinutes) + "min"
      else IntToString(hours) + "h"
  }

  /**
   * From an hour on, the text is whole hours and the minutes left over:
   * `hours * 60 + rest` is the duration, `rest` is below 60, and a zero rest
   * is not written.
   */
  lemma FormatDurationHours(minutes: int)
    requires minutes >= 60
    ensures var hours, rest := minutes / 60, minutes % 60;
      hours >= 1 && hours * 60 + rest == minutes && 0 <= rest < 60
      && FormatDuration(minutes) == if rest == 0 then NatToString(hours) + "h"
                                    else NatToString(hours) + "h " + NatToString(rest) + "min"
  {
  }

  predicate EndsWith(s: string, suffix: string) {
    |suffix| <= |s| && s[|s| - |suffix|..] == suffix
  }

  /** A non-empty run of decimal digits, read as a number. */
  function Numeral(s: string): Option<nat> {
    if s != [] && AllDigits(s) then Some(DigitsValue(s)) else None
  }

  lemma NumeralOfNatToString(n: nat)
    ensures Numeral(NatToString(n)) == Some(n)
  {
    NatToStringRoundTrip(n);
  }

  /** Read a duration text back: `<m> min`, `<h>h` or `<h>h <r>min`. */
  function ParseDuration(s: string): Option<int> {
    if EndsWith(s, " min") then
      var m := Numeral(s[..|s| - 4]);
      if m.Some? then Some(m.value) else None
    else if EndsWith(s, "h") then
      var h := Numeral(s[..|s| - 1]);
      if h.Some? then Some(h.value * 60) else None
    else if EndsWith(s, "min") then HoursAndMinutes(s[..|s| - 3])
    else None
  }

  /** The `<h>h <r>` part of `<h>h <r>min`. */
  function HoursAndMinutes(body: string): Option<int> {
    var hs := BeforeFirst(body, 'h');
    if |hs| + 2 <= |body| && body[|hs| + 1] == ' ' then
      var h, r := Numeral(hs), Numeral(body[|hs| + 2..]);
      if h.Some? && r.Some? then Some(h.value * 60 + r.value) else None
    else None
  }

  lemma ParseMinutes(n: nat)
    ensures ParseDuration(NatToString(n) + " min") == Some(n)
  {
    var s := NatToString(n) + " min";
    assert s[|s| - 4..] == " min";
    assert s[..|s| - 4] == NatToString(n);
    NumeralOfNatToString(n);
  }

  lemma ParseHours(h: nat)
    ensures ParseDuration(NatToString(h) + "h") == Some(h * 60)
  {
    var s := NatToString(h) + "h";
    assert s[|s| - 1] == 'h';
    assert s[|s| - 1..] == "h";
    assert s[..|s| - 1] == NatToString(h);
    NumeralOfNatToString(h);
  }

  /** `<h>h <r>` is read as the numerals on either side of `h `. */
  lemma HoursAndMinutesOf(hn: string, rn: string)
    requires 'h' !in hn
    ensures HoursAndMinutes(hn + ['h'] + (" " + rn)) ==
      if Numeral(hn).Some? && Numeral(rn).Some? then Some(Numeral(hn).value * 60 + Numeral(rn).value) else None
  {
    var body := hn + ['h'] + (" " + rn);
    BeforeFirstOfJoin(hn, 'h', " " + rn);
    assert body[|hn| + 1] == ' ';
    assert body[|hn| + 2..] == rn;
  }

  /** A text `<h>h <r>min` whose `<r>` ends in a digit takes the third reading. */
  lemma ParseHoursMinutesText(hn: string, rn: string)
    requires rn != [] && IsDigit(rn[|rn| - 1])
    ensures ParseDuration(hn + "h " + rn + "min") == HoursAndMinutes(hn + ['h'] + (" " + rn))
  {
    var body := hn + ['h'] + (" " + rn);
    var s := hn + "h " + rn + "min";
    assert s == body + "min";
    assert s[|s| - 4] == rn[|rn| - 1];
    assert !EndsWith(s, " min") by {
      assert s[|s| - 4..][0] == s[|s| - 4];
    }
    assert !EndsWith(s, "h") by {
      assert s[|s| - 1..][0] == 'n';
    }
    assert EndsWith(s, "min") && s[..|s| - 3] == body;
  }

  /** The `<h>h <r>` part written from two numbers reads back as their sum in minutes. */
  lemma HoursAndMinutesOfNats(h: nat, r: nat)
    ensures HoursAndMinutes(NatToString(h) + ['h'] + (" " + NatToString(r))) == Some(h * 60 + r)
  {
    var hn := NatToString(h);
    assert 'h' !in hn by {
      forall i | 0 <= i < |hn| ensures hn[i] != 'h' {
        assert IsDigit(hn[i]);
      }
    }
    HoursAndMinutesOf(hn, NatToString(r));
    NumeralOfNatToString(h);
    NumeralOfNatToString(r);
  }

  lemma ParseHoursMinutes(h: nat, r: nat)
    ensures ParseDuration(NatToString(h) + "h " + NatToString(r) + "min") == Some(h * 60 + r)
  {
    var rn := NatToString(r);
    assert IsDigit(rn[|rn| - 1]);
    ParseHoursMinutesText(NatToString(h), rn);
    HoursAndMinutesOfNats(h, r);
  }

  /** Every non-negative duration can be read back from its text. */
  lemma ParseFormatDuration(minutes: int)
    requires minutes >= 0
    ensures ParseDuration(FormatDuration(minutes)) == Some(minutes)
  {
    if minutes < 60 {
      ParseMinutes(minutes);
    } else if minutes % 60 == 0 {
      ParseHours(minutes / 60);
    } else {
      ParseHoursMinutes(minutes / 60, minutes % 60);
    }
  }

  /** Different non-negative durations are written differently. */
  lemma FormatDurationInjective(m: int, n: int)
    requires m >= 0 && n >= 0 && FormatDuration(m) == FormatDuration(n)
    ensures m == n
  {
    ParseFormatDuration(m);
    ParseFormatDuration(n);
  }

  /** A card is highlighted when the selected service has its id; with nothing selected, none is. */
  function IsCardSelected(card: Service, selected: Option<Service>): (b: bool)
    ensures selected == Some(card) ==> b
    ensures selected.None? ==> !b
    ensures b ==> selected.value.id == card.id
    ensures (selected.Some? && selected.value.id == card.id) ==> b
  {
    selected.Some? && selected.value.id == card.id
  }

  /** With distinct ids, at most one card of the list is highlighted. */
  lemma AtMostOneCardSelected(services: seq<Service>, selected: Option<Service>, i: int, j: int)
    requires forall a, b :: 0 <= a < b < |services| ==> services[a].id != services[b].id
    requires 0 <= i < |services| && 0 <= j < |services|
    requires IsCardSelected(services[i], selected) && IsCardSelected(services[j], selected)
    ensures i == j
  {
  }
}
