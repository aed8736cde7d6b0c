/** Times of day as the components write them: zero-padded "HH:MM" strings, compared as
    strings (App.tsx) or converted to minutes (RescheduleModal.tsx). */
module Times {
  import opened Wrappers

  /** An hour and a minute, as `time.split(':').map(Number)` yields them. */
  datatype Clock = Clock(hour: nat, minute: nat)

  /** A well-formed time of day. */
  type Time = c: Clock | c.hour < 24 && c.minute < 60 witness Clock(0, 0)

  /** Minutes since midnight: `hours * 60 + minutes`. */
  function Minutes(c: Clock): nat
  {
    c.hour * 60 + c.minute
  }

  /** The decimal digit character for `n`. */
  function Digit(n: nat): char
    requires n < 10
  {
    ('0' as int + n) as char
  }

  predicate IsDigit(ch: char)
  {
    '0' <= ch <= '9'
  }

  function DigitValue(ch: char): nat
    requires IsDigit(ch)
  {
    ch as int - '0' as int
  }

  /** `n.toString().padStart(2, '0')` for a number below 100. */
  function Pad2(n: nat): string
    requires n < 100
  {
    [Digit(n / 10), Digit(n % 10)]
  }

  /** The "HH:MM" rendering of a time (App.tsx:205, RescheduleModal.tsx:45). */
  function Render(c: Clock): (r: string)
    requires c.hour < 100 && c.minute < 100
  {
    Pad2(c.hour) + [':'] + Pad2(c.minute)
  }

  /** Reads back a two-digit "HH:MM" string; anything else has no parse. */
  function ParseTime(s: string): (r: Option<Clock>)
    ensures r.Some? ==> r.value.hour < 100 && r.value.minute < 100
  {
    if |s| == 5 && IsDigit(s[0]) && IsDigit(s[1]) && s[2] == ':' && IsDigit(s[3]) && IsDigit(s[4])
    then Some(Clock(10 * DigitValue(s[0]) + DigitValue(s[1]), 10 * DigitValue(s[3]) + DigitValue(s[4])))
    else None
  }

  /** Parsing the rendering of a time gives the time back. */
  lemma ParseRender(c: Clock)
    requires c.hour < 100 && c.minute < 100
    ensures ParseTime(Render(c)) == Some(c)
  {
    var s := Render(c);
    assert s[0] == Digit(c.hour / 10) && s[1] == Digit(c.hour % 10);
    assert s[3] == Digit(c.minute / 10) && s[4] == Digit(c.minute % 10);
  }

  /** A string that parses is the rendering of what it parses to: "HH:MM" is canonical. */
  lemma RenderParse(s: string)
    requires ParseTime(s).Some?
    ensures Render(ParseTime(s).value) == s
  {
    var c := ParseTime(s).value;
    var r := Render(c);
    assert r[0] == s[0] && r[1] == s[1] && r[3] == s[3] && r[4] == s[4];
  }

  /** JavaScript's `a < b` on strings: lexicographic order of the characters. */
  function StrLt(a: string, b: string): bool
  {
    if |b| == 0 then false
    else if |a| == 0 then true
    else if a[0] != b[0] then a[0] < b[0]
    else StrLt(a[1..], b[1..])
  }

  lemma DigitOrder(x: nat, y: nat)
    requires x < 10 && y < 10
    ensures Digit(x) < Digit(y) <==> x < y
    ensures Digit(x) == Digit(y) <==> x == y
  {
  }

  /** JavaScript's `a >= b` on strings. */
  function StrGe(a: string, b: string): bool
  {
    !StrLt(a, b)
  }

  /** One step of the string order: the first characters decide unless they are equal. */
  lemma StrLtCons(x: char, y: char, a: string, b: string)
    ensures StrLt([x] + a, [y] + b) == if x != y then x < y else StrLt(a, b)
  {
    assert ([x] + a)[1..] == a && ([y] + b)[1..] == b;
  }

  /** Below 100, the order of numbers is the order of their (tens, units) digit pairs. */
  lemma TwoDigitOrder(x: nat, y: nat)
    requires x < 100 && y < 100
    ensures x < y <==> (x / 10 < y / 10 || (x / 10 == y / 10 && x % 10 < y % 10))
    ensures x == y <==> (x / 10 == y / 10 && x % 10 == y % 10)
  {
  }

  /** Comparing two renderings as strings is comparing the times as minutes. */
  lemma RenderOrder(t1: Time, t2: Time)
    ensures StrLt(Render(t1), Render(t2)) <==> Minutes(t1) < Minutes(t2)
  {
    var h1, h2, m1, m2 := t1.hour, t2.hour, t1.minute, t2.minute;
    DigitOrder(h1 / 10, h2 / 10);
    DigitOrder(h1 % 10, h2 % 10);
    DigitOrder(m1 / 10, m2 / 10);
    DigitOrder(m1 % 10, m2 % 10);
    var a3, b3 := [Digit(m1 / 10), Digit(m1 % 10)], [Digit(m2 / 10), Digit(m2 % 10)];
    var a1, b1 := [Digit(h1 % 10), ':'] + a3, [Digit(h2 % 10), ':'] + b3;
    assert Render(t1) == [Digit(h1 / 10)] + a1 && Render(t2) == [Digit(h2 / 10)] + b1;
    assert a1 == [Digit(h1 % 10)] + ([':'] + a3) && b1 == [Digit(h2 % 10)] + ([':'] + b3);
    assert a3 == [Digit(m1 / 10)] + [Digit(m1 % 10)] && b3 == [Digit(m2 / 10)] + [Digit(m2 % 10)];
    StrLtCons(Digit(h1 / 10), Digit(h2 / 10), a1, b1);
    StrLtCons(Digit(h1 % 10), Digit(h2 % 10), [':'] + a3, [':'] + b3);
    StrLtCons(':', ':', a3, b3);
    StrLtCons(Digit(m1 / 10), Digit(m2 / 10), [Digit(m1 % 10)], [Digit(m2 % 10)]);
    StrLtCons(Digit(m1 % 10), Digit(m2 % 10), [], []);
    TwoDigitOrder(h1, h2);
    TwoDigitOrder(m1, m2);
  }
}
