/**
 * Integers as decimal text, as `Number.prototype.toString()` writes them for
 * the integer ids the component joins, and the comma-joined id lists
 * (`ids.join(",")`) that go into the query string.
 */
module Decimal {
  import opened Options
  import Strings

  predicate IsDigit(ch: char) { '0' <= ch <= '9' }

  predicate AllDigits(s: string) { forall k :: 0 <= k < |s| ==> IsDigit(s[k]) }

  function DigitChar(d: nat): (ch: char)
    requires d < 10
    ensures IsDigit(ch)
  {
    ('0' as int + d) as char
  }

  function DigitValue(ch: char): (d: nat)
    requires IsDigit(ch)
    ensures d < 10
  {
    ch as int - '0' as int
  }

  /** The value of a string of decimal digits, most significant first. */
  function DigitsValue(s: string): nat
    requires AllDigits(s)
  {
    if |s| == 0 then 0
    else DigitsValue(s[..|s| - 1]) * 10 + DigitValue(s[|s| - 1])
  }

  /** Shortest decimal spelling of `n`: non-empty, digits only, no leading zero. */
  function NatToString(n: nat): (s: string)
    ensures |s| >= 1 && AllDigits(s)
    ensures |s| > 1 ==> s[0] != '0'
  {
    if n < 10 then [DigitChar(n)]
    else NatToString(n / 10) + [DigitChar(n % 10)]
  }

  lemma {:induction false} NatRoundTrip(n: nat)
    ensures DigitsValue(NatToString(n)) == n
  {
    if n >= 10 {
      var s := NatToString(n);
      NatRoundTrip(n / 10);
      assert s[..|s| - 1] == NatToString(n / 10);
    }
  }

  /**
   * `String(i)` for an integer `i`: a minus sign exactly when `i` is negative,
   * then the digits of `|i|` with no leading zero. With `IntRoundTrip` this
   * fixes the spelling: no sign for non-negatives, no `"-0"`, no `"05"`.
   */
  function IntToString(i: int): (s: string)
    ensures |s| >= 1 && (s[0] == '-' <==> i < 0)
    ensures var digits := if i < 0 then s[1..] else s;
      |digits| >= 1 && AllDigits(digits) && (|digits| > 1 ==> digits[0] != '0')
    ensures ',' !in s
  {
    if i < 0 then "-" + NatToString(-i) else NatToString(i)
  }

  /** Reads back an optionally signed decimal integer; anything else is `None`. */
  function ParseInt(s: string): (r: Option<int>)
    ensures r.Some? ==> |s| >= 1
  {
    if |s| >= 2 && s[0] == '-' && AllDigits(s[1..]) then Some(0 - DigitsValue(s[1..]) as int)
    else if |s| >= 1 && AllDigits(s) then Some(DigitsValue(s))
    else None
  }

  lemma IntRoundTrip(i: int)
    ensures ParseInt(IntToString(i)) == Some(i)
  {
    if i < 0 {
      NegativeRoundTrip(-i);
    } else {
      NatRoundTrip(i);
      DigitsParse(NatToString(i));
    }
  }

  /** A minus sign followed by the digits of a positive number reads back as its negation. */
  lemma NegativeRoundTrip(n: nat)
    requires n >= 1
    ensures ParseInt("-" + NatToString(n)) == Some(-(n as int))
  {
    var d := NatToString(n);
    var s := "-" + d;
    assert s[1..] == d;
    NatRoundTrip(n);
  }

  /** A non-empty string of digits reads back as its value. */
  lemma DigitsParse(d: string)
    requires |d| >= 1 && AllDigits(d)
    ensures ParseInt(d) == Some(DigitsValue(d) as int)
  {
    assert IsDigit(d[0]);
  }

  /** The decimal spelling of each id, in order. */
  function Spellings(ids: seq<int>): (r: seq<string>)
    ensures |r| == |ids|
    ensures forall k :: 0 <= k < |r| ==> r[k] == IntToString(ids[k])
  {
    seq(|ids|, k requires 0 <= k < |ids| => IntToString(ids[k]))
  }

  /**
   * `ids.join(",")`: an empty list gives `""`; a non-empty one is the
   * `String` spellings of the ids separated by commas, and reads back as the
   * same ids.
   */
  function JoinIds(ids: seq<int>): (s: string)
    ensures |ids| == 0 ==> s == ""
    ensures |ids| >= 1 ==> Strings.Split(s, ',') == Spellings(ids)
    ensures |ids| >= 1 ==> ParseIds(s) == Some(ids)
  {
    if |ids| >= 1 then
      Strings.SplitJoin(Spellings(ids), ',');
      ParseAllSpellings(ids);
      Strings.Join(Spellings(ids), ',')
    else Strings.Join(Spellings(ids), ',')
  }

  function ParseAll(parts: seq<string>): Option<seq<int>>
  {
    if |parts| == 0 then Some([])
    else
      match ParseInt(parts[0])
      case None => None
      case Some(v) =>
        match ParseAll(parts[1..])
        case None => None
        case Some(vs) => Some([v] + vs)
  }

  /** How a receiver reads a comma-joined id list: every piece must be an integer. */
  function ParseIds(s: string): Option<seq<int>>
  {
    ParseAll(Strings.Split(s, ','))
  }

  lemma {:induction false} ParseAllSpellings(ids: seq<int>)
    ensures ParseAll(Spellings(ids)) == Some(ids)
    decreases |ids|
  {
    if |ids| > 0 {
      var sp := Spellings(ids);
      IntRoundTrip(ids[0]);
      assert ParseInt(sp[0]) == Some(ids[0]);
      assert sp[1..] == Spellings(ids[1..]);
      ParseAllSpellings(ids[1..]);
      assert ParseAll(sp) == Some([ids[0]] + ids[1..]);
      assert ids == [ids[0]] + ids[1..];
    }
  }

  /** A non-empty id list survives being comma-joined: the receiver reads back exactly the same ids, in order. */
  lemma IdsRoundTrip(ids: seq<int>)
    requires |ids| >= 1
    ensures ParseIds(JoinIds(ids)) == Some(ids)
  {
    Strings.SplitJoin(Spellings(ids), ',');
    ParseAllSpellings(ids);
  }

  /** An empty list joins to `""`, which reads back as no id list at all. */
  lemma EmptyIdsUnreadable()
    ensures JoinIds([]) == ""
    ensures ParseIds("") == None
  {
    assert Strings.Split("", ',') == [""];
  }

  /** Ids 3 and 7 join to `"3,7"`. */
  lemma JoinIdsExample()
    ensures JoinIds([3, 7]) == "3,7"
  {
    assert NatToString(3) == [DigitChar(3)] == "3";
    assert NatToString(7) == [DigitChar(7)] == "7";
    var sp := Spellings([3, 7]);
    assert sp == ["3", "7"];
    assert sp[1..] == ["7"];
    assert Strings.Join(sp, ',') == "3" + [','] + "7";
  }
}
