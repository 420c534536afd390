/**
 The pieces of Go's `fmt` and `strings` packages that the load balancer uses, on `string`
 (a sequence of characters): the `%d` verb, the first field of `strings.Split`, and
 `strings.TrimSuffix`. `ParseHostPort` is an independent reader of the `host:port` text
 that `Sprintf("%s:%d", ...)` writes, used to state that the rendering loses nothing.
 */
module Text {
  import opened Wrappers

  predicate IsDigit(c: char) { '0' <= c <= '9' }

  predicate IsDigits(s: string) { forall i :: 0 <= i < |s| ==> IsDigit(s[i]) }

  function DigitValue(c: char): nat
    requires IsDigit(c)
  {
    c as int - '0' as int
  }

  function DigitChar(d: nat): (c: char)
    requires d < 10
    ensures IsDigit(c) && DigitValue(c) == d
  {
    ('0' as int + d) as char
  }

  /** The value of a string of decimal digits, most significant first. */
  function DigitsValue(s: string): nat
    requires IsDigits(s)
  {
    if |s| == 0 then 0 else DigitsValue(s[..|s| - 1]) * 10 + DigitValue(s[|s| - 1])
  }

  /** What Go's `%d` verb prints for a non-negative integer: digits only, no leading zero. */
  function Decimal(n: nat): (r: string)
    ensures |r| > 0 && IsDigits(r)
    ensures r[0] == '0' ==> n == 0
  {
    if n < 10 then [DigitChar(n)] else Decimal(n / 10) + [DigitChar(n % 10)]
  }

  lemma {:induction false} DecimalRoundTrip(n: nat)
    ensures DigitsValue(Decimal(n)) == n
  {
    if n >= 10 {
      DecimalRoundTrip(n / 10);
      var s := Decimal(n);
      assert s[..|s| - 1] == Decimal(n / 10);
    }
  }

  /** The first element of `strings.Split(s, [sep])`: the text before the first `sep`, or all of `s`. */
  function FirstField(s: string, sep: char): (r: string)
    ensures r <= s && sep !in r
    ensures |r| < |s| ==> s[|r|] == sep
  {
    if |s| == 0 || s[0] == sep then [] else [s[0]] + FirstField(s[1..], sep)
  }

  /** A string without `sep`, followed by `sep` and anything, has that string as its first field. */
  lemma FirstFieldBefore(head: string, sep: char, rest: string)
    requires sep !in head
    ensures FirstField(head + [sep] + rest, sep) == head
    ensures FirstField(head, sep) == head
  {
    var s := head + [sep] + rest;
    var r := FirstField(s, sep);
    assert s[|head|] == sep;
    assert forall i :: 0 <= i < |r| ==> s[i] != sep;
    assert r == s[..|head|] == head;
    var t := FirstField(head, sep);
    if |t| < |head| {
      assert false;
    }
  }

  predicate HasSuffix(s: string, suffix: string)
  {
    |suffix| <= |s| && s[|s| - |suffix|..] == suffix
  }

  /** Go's `strings.TrimSuffix`: `suffix` removed once from the end when it is there. */
  function TrimSuffix(s: string, suffix: string): (r: string)
    ensures HasSuffix(s, suffix) ==> r + suffix == s
    ensures !HasSuffix(s, suffix) ==> r == s
  {
    if HasSuffix(s, suffix) then s[..|s| - |suffix|] else s
  }

  /** Only one occurrence comes off, however many the string ends with. */
  lemma TrimSuffixOnce(s: string, suffix: string)
    ensures TrimSuffix(s + suffix + suffix, suffix) == s + suffix
    ensures TrimSuffix(s + suffix, suffix) == s
  {
    assert HasSuffix(s + suffix + suffix, suffix) by {
      assert (s + suffix + suffix)[|s + suffix|..] == suffix;
    }
    assert HasSuffix(s + suffix, suffix) by {
      assert (s + suffix)[|s|..] == suffix;
    }
  }

  /** The position of the last `c` in `s`, if any. */
  function LastIndex(s: string, c: char): (r: Option<nat>)
    ensures r.Some? ==> r.value < |s| && s[r.value] == c && c !in s[r.value + 1..]
    ensures r.None? ==> c !in s
  {
    if |s| == 0 then None
    else if s[|s| - 1] == c then Some(|s| - 1)
    else
      var r := LastIndex(s[..|s| - 1], c);
      if r.Some? then
        assert s[r.value + 1..] == s[..|s| - 1][r.value + 1..] + [s[|s| - 1]];
        r
      else
        assert s == s[..|s| - 1] + [s[|s| - 1]];
        r
  }

  /** Reads `host:port` back: the host is everything before the last colon, the port the digits after it. */
  function ParseHostPort(s: string): Option<(string, nat)>
  {
    match LastIndex(s, ':')
    case None => None
    case Some(k) =>
      var digits := s[k + 1..];
      if |digits| > 0 && IsDigits(digits) then Some((s[..k], DigitsValue(digits))) else None
  }

  /** `host:port` rendered with `%s:%d` reads back as the same host and port, whatever the host holds. */
  lemma HostPortRoundTrip(host: string, n: nat)
    ensures ParseHostPort(host + ":" + Decimal(n)) == Some((host, n))
  {
    var d := Decimal(n);
    var s := host + ":" + d;
    assert s[|host|] == ':';
    var k := LastIndex(s, ':');
    assert k.Some?;
    assert k.value == |host|;
    assert s[|host| + 1..] == d;
    assert s[..|host|] == host;
    DecimalRoundTrip(n);
  }
}
