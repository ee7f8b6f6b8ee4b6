/**
  Local wall-clock readings and the `%Y-%m-%d %H:%M:%S` rendering that both the
  telemetry bridge (for the POST body) and the sensor API (for a default insert
  timestamp) produce. The clock itself is never read here: a reading is an input.
 */
module Clock {
  import opened Wrappers

  /** A broken-down local time, as `datetime.now()` / `time.localtime()` give it. */
  datatype DateTime = DateTime(year: nat, month: nat, day: nat, hour: nat, minute: nat, second: nat)

  /** Every field fits its printed width: a four-digit year and two digits for the rest. */
  predicate Fits(t: DateTime)
  {
    t.year < 10000 && t.month < 100 && t.day < 100 && t.hour < 100 && t.minute < 100 && t.second < 100
  }

  predicate IsDigit(c: char)
  {
    '0' <= c <= '9'
  }

  function Digit(d: nat): (c: char)
    requires d < 10
    ensures IsDigit(c)
  {
    ('0' as int + d) as char
  }

  function DigitValue(c: char): (d: nat)
    requires IsDigit(c)
    ensures d < 10 && Digit(d) == c
  {
    c as int - '0' as int
  }

  /** Zero-padded two-digit rendering (`%m`, `%d`, `%H`, `%M`, `%S`). */
  function Pad2(n: nat): (s: string)
    requires n < 100
    ensures |s| == 2 && IsDigit(s[0]) && IsDigit(s[1])
  {
    [Digit(n / 10), Digit(n % 10)]
  }

  /** Zero-padded four-digit rendering (`%Y`). */
  function Pad4(n: nat): (s: string)
    requires n < 10000
    ensures |s| == 4 && forall i :: 0 <= i < 4 ==> IsDigit(s[i])
  {
    Pad2(n / 100) + Pad2(n % 100)
  }

  /** `strftime("%Y-%m-%d %H:%M:%S")` on a reading. */
  function Format(t: DateTime): (s: string)
    requires Fits(t)
    ensures |s| == 19
  {
    Pad4(t.year) + "-" + Pad2(t.month) + "-" + Pad2(t.day) + " "
      + Pad2(t.hour) + ":" + Pad2(t.minute) + ":" + Pad2(t.second)
  }

  /** Positions of the separators in a formatted timestamp. */
  predicate SeparatorAt(i: int)
  {
    i == 4 || i == 7 || i == 10 || i == 13 || i == 16
  }

  /** `s` has the exact shape `DDDD-DD-DD DD:DD:DD`. */
  predicate Shaped(s: string)
  {
    && |s| == 19
    && s[4] == '-' && s[7] == '-' && s[10] == ' ' && s[13] == ':' && s[16] == ':'
    && forall i :: 0 <= i < 19 && !SeparatorAt(i) ==> IsDigit(s[i])
  }

  function Value2(a: char, b: char): (n: nat)
    requires IsDigit(a) && IsDigit(b)
    ensures n < 100
  {
    DigitValue(a) * 10 + DigitValue(b)
  }

  /** Reads a timestamp back; the inverse of Format (it checks shape, not calendar ranges). */
  function Parse(s: string): (r: Option<DateTime>)
    ensures r.Some? <==> Shaped(s)
    ensures r.Some? ==> Fits(r.value)
  {
    if Shaped(s) then
      Some(DateTime(Value2(s[0], s[1]) * 100 + Value2(s[2], s[3]),
                    Value2(s[5], s[6]), Value2(s[8], s[9]),
                    Value2(s[11], s[12]), Value2(s[14], s[15]), Value2(s[17], s[18])))
    else None
  }

  lemma Value2OfPad2(n: nat)
    requires n < 100
    ensures Value2(Pad2(n)[0], Pad2(n)[1]) == n
  {
    assert DigitValue(Digit(n / 10)) == n / 10;
    assert DigitValue(Digit(n % 10)) == n % 10;
  }

  /** Where each field sits in a rendered timestamp. */
  lemma FormatSlices(t: DateTime)
    requires Fits(t)
    ensures Format(t)[0..4] == Pad4(t.year)
    ensures Format(t)[5..7] == Pad2(t.month) && Format(t)[8..10] == Pad2(t.day)
    ensures Format(t)[11..13] == Pad2(t.hour) && Format(t)[14..16] == Pad2(t.minute)
    ensures Format(t)[17..19] == Pad2(t.second)
  {
    var p1 := Pad4(t.year) + "-" + Pad2(t.month) + "-";
    var p2 := p1 + Pad2(t.day) + " ";
    var p3 := p2 + Pad2(t.hour) + ":";
    var p4 := p3 + Pad2(t.minute) + ":";
    assert Format(t) == p4 + Pad2(t.second);
    assert Format(t)[..17] == p4 && p4[..14] == p3 && p3[..11] == p2 && p2[..8] == p1;
  }

  /** Printing a reading and reading it back gives the same reading. */
  lemma {:induction false} ParseFormat(t: DateTime)
    requires Fits(t)
    ensures Parse(Format(t)) == Some(t)
  {
    var s := Format(t);
    var y := Pad4(t.year);
    FormatSlices(t);
    assert Shaped(s) by {
      forall i | 0 <= i < 19 && !SeparatorAt(i) ensures IsDigit(s[i]) {
        if i < 4 { assert s[i] == y[i]; }
        else if i < 7 { assert s[i] == s[5..7][i - 5]; }
        else if i < 10 { assert s[i] == s[8..10][i - 8]; }
        else if i < 13 { assert s[i] == s[11..13][i - 11]; }
        else if i < 16 { assert s[i] == s[14..16][i - 14]; }
        else { assert s[i] == s[17..19][i - 17]; }
      }
    }
    Value2OfPad2(t.year / 100);
    Value2OfPad2(t.year % 100);
    Value2OfPad2(t.month);
    Value2OfPad2(t.day);
    Value2OfPad2(t.hour);
    Value2OfPad2(t.minute);
    Value2OfPad2(t.second);
  }

  lemma DivMod100(hi: nat, lo: nat)
    requires lo < 100
    ensures (hi * 100 + lo) / 100 == hi && (hi * 100 + lo) % 100 == lo
  {
  }

  /** Two digit pairs with the same value are the same pair. */
  lemma Value2Injective(a: char, b: char, c: char, d: char)
    requires IsDigit(a) && IsDigit(b) && IsDigit(c) && IsDigit(d)
    requires Value2(a, b) == Value2(c, d)
    ensures a == c && b == d
  {
    assert DigitValue(a) == DigitValue(c) && DigitValue(b) == DigitValue(d);
  }

  /** Two well-shaped timestamps that read as the same reading are the same text. */
  lemma {:induction false} ParseInjective(a: string, b: string)
    requires Parse(a).Some? && Parse(a) == Parse(b)
    ensures a == b
  {
    assert !SeparatorAt(0) && !SeparatorAt(1) && !SeparatorAt(2) && !SeparatorAt(3);
    assert !SeparatorAt(5) && !SeparatorAt(6) && !SeparatorAt(8) && !SeparatorAt(9);
    assert !SeparatorAt(11) && !SeparatorAt(12) && !SeparatorAt(14) && !SeparatorAt(15);
    assert !SeparatorAt(17) && !SeparatorAt(18);
    DivMod100(Value2(a[0], a[1]), Value2(a[2], a[3]));
    DivMod100(Value2(b[0], b[1]), Value2(b[2], b[3]));
    Value2Injective(a[0], a[1], b[0], b[1]);
    Value2Injective(a[2], a[3], b[2], b[3]);
    Value2Injective(a[5], a[6], b[5], b[6]);
    Value2Injective(a[8], a[9], b[8], b[9]);
    Value2Injective(a[11], a[12], b[11], b[12]);
    Value2Injective(a[14], a[15], b[14], b[15]);
    Value2Injective(a[17], a[18], b[17], b[18]);
    forall i | 0 <= i < 19 ensures a[i] == b[i] {
    }
  }

  /** Every well-shaped timestamp is the rendering of the reading it parses to. */
  lemma FormatParse(s: string)
    requires Parse(s).Some?
    ensures Format(Parse(s).value) == s
  {
    ParseFormat(Parse(s).value);
    ParseInjective(Format(Parse(s).value), s);
  }
}
