/** The string operations the election text is read with, and decimal and hexadecimal digits. */
module Text {
  import opened Packets
  import opened Wrappers

  predicate StartsWith(s: string, p: string) {
    |p| <= |s| && s[..|p|] == p
  }

  // ── Splitting ───────────────────────────────────────────────────────────

  /** Before and after the first occurrence of `sep`. */
  function SplitOnce(s: string, sep: string): Option<(string, string)> {
    if StartsWith(s, sep) then Some(("", s[|sep|..]))
    else if s == "" then None
    else
      match SplitOnce(s[1..], sep)
      case None => None
      case Some((before, after)) => Some(([s[0]] + before, after))
  }

  function SplitAll(s: string, sep: string): seq<string>
    requires sep != ""
    decreases |s|
  {
    match SplitOnce(s, sep)
    case None => [s]
    case Some((before, after)) =>
      SplitOnceShrinks(s, sep);
      [before] + SplitAll(after, sep)
  }

  lemma {:induction false} SplitOnceShrinks(s: string, sep: string)
    ensures SplitOnce(s, sep).Some? ==>
              s == SplitOnce(s, sep).value.0 + (sep + SplitOnce(s, sep).value.1)
              && |SplitOnce(s, sep).value.1| + |sep| <= |s|
  {
    if !StartsWith(s, sep) && s != "" {
      SplitOnceShrinks(s[1..], sep);
    }
  }

  function Join(parts: seq<string>, sep: string): string {
    if parts == [] then ""
    else if |parts| == 1 then parts[0]
    else parts[0] + (sep + Join(parts[1..], sep))
  }

  /** `mark` occurs in the separator, at `at`, and not before that separator in the text. */
  lemma {:induction false} SplitOnceAt(a: string, sep: string, b: string, mark: char, at: nat)
    requires at < |sep| && sep[at] == mark && mark !in a && mark !in sep[..at]
    ensures SplitOnce(a + (sep + b), sep) == Some((a, b))
  {
    var s := a + (sep + b);
    if a == "" {
      assert s == sep + b;
    } else {
      assert s[1..] == a[1..] + (sep + b);
      assert s[at] != mark by {
        if at >= |a| {
          assert s[at] == sep[at - |a|] && sep[at - |a|] == sep[..at][at - |a|];
        }
      }
      assert s[..|sep|][at] == s[at];
      SplitOnceAt(a[1..], sep, b, mark, at);
      assert [s[0]] + a[1..] == a;
    }
  }

  lemma {:induction false} SplitOnceNone(s: string, sep: string, at: nat)
    requires at < |sep| && sep[at] !in s
    ensures SplitOnce(s, sep) == None
  {
    assert |sep| <= |s| ==> s[..|sep|][at] == s[at];
    if s != "" {
      SplitOnceNone(s[1..], sep, at);
    }
  }

  /** Splitting undoes joining of parts that hold no mark of the separator. */
  lemma {:induction false} SplitJoin(parts: seq<string>, sep: string, mark: char)
    requires parts != [] && sep != "" && sep[0] == mark && forall p :: p in parts ==> mark !in p
    ensures SplitAll(Join(parts, sep), sep) == parts
  {
    if |parts| == 1 {
      SplitOnceNone(parts[0], sep, 0);
    } else {
      SplitOnceAt(parts[0], sep, Join(parts[1..], sep), mark, 0);
      SplitJoin(parts[1..], sep, mark);
    }
  }

  lemma {:induction false} JoinEmpty(parts: seq<string>, sep: string)
    requires sep != ""
    ensures Join(parts, sep) == "" <==> parts == [] || parts == [""]
  {
  }

  // ── Replacing ───────────────────────────────────────────────────────────

  /** Every occurrence, left to right. */
  function Replace(s: string, from: string, to: string): string
    requires from != ""
  {
    if StartsWith(s, from) then to + Replace(s[|from|..], from, to)
    else if s == "" then ""
    else [s[0]] + Replace(s[1..], from, to)
  }

  lemma ReplaceAt(from: string, to: string, rest: string)
    requires from != ""
    ensures Replace(from + rest, from, to) == to + Replace(rest, from, to)
  {
    assert (from + rest)[|from|..] == rest;
  }

  /** Text without the first character of `from` is passed over. */
  lemma {:induction false} ReplaceSkip(a: string, rest: string, from: string, to: string)
    requires from != "" && from[0] !in a
    ensures Replace(a + rest, from, to) == a + Replace(rest, from, to)
  {
    if a == "" {
      assert a + rest == rest;
    } else {
      assert (a + rest)[1..] == a[1..] + rest;
      assert (a + rest)[0] == a[0];
      ReplaceSkip(a[1..], rest, from, to);
    }
  }

  lemma ReplaceNothing(a: string, from: string, to: string)
    requires from != "" && from[0] !in a
    ensures Replace(a, from, to) == a
  {
    ReplaceSkip(a, "", from, to);
    assert a + "" == a;
  }

  // ── Digits ──────────────────────────────────────────────────────────────

  predicate IsDigit(c: char) {
    '0' <= c <= '9'
  }

  function Decimal(n: nat): (s: string)
    ensures s != "" && forall c :: c in s ==> IsDigit(c)
  {
    if n < 10 then [('0' as int + n) as char] else Decimal(n / 10) + [('0' as int + n % 10) as char]
  }

  function ReadDecimal(s: string): nat
    requires forall c :: c in s ==> IsDigit(c)
  {
    if s == "" then 0
    else
      assert IsDigit(s[|s| - 1]);
      ReadDecimal(s[..|s| - 1]) * 10 + (s[|s| - 1] as int - '0' as int)
  }

  lemma {:induction false} DecimalReads(n: nat)
    ensures ReadDecimal(Decimal(n)) == n
  {
    if n >= 10 {
      DecimalReads(n / 10);
      assert Decimal(n)[..|Decimal(n)| - 1] == Decimal(n / 10);
    }
  }

  lemma DecimalInjective(m: nat, n: nat)
    ensures Decimal(m) == Decimal(n) ==> m == n
  {
    DecimalReads(m);
    DecimalReads(n);
  }

  function HexDigit(v: nat): char
    requires v < 16
  {
    if v < 10 then ('0' as int + v) as char else ('a' as int + v - 10) as char
  }

  function HexValue(c: char): nat {
    if '0' <= c <= '9' then c as int - '0' as int
    else if 'a' <= c <= 'f' then c as int - 'a' as int + 10 else 0
  }

  /** Two digits a byte. */
  function HexDigits(raw: Bytes): string {
    if raw == [] then ""
    else HexDigits(raw[..|raw| - 1]) + [HexDigit(raw[|raw| - 1] / 16), HexDigit(raw[|raw| - 1] % 16)]
  }

  function Hex(raw: Bytes): string {
    if raw == [] then "" else "0x" + HexDigits(raw)
  }

  method EncodeHex(raw: Bytes) returns (s: string)
    ensures s == Hex(raw)
  {
    if |raw| == 0 {
      return "";
    }
    s := "0x";
    var k := 0;
    while k < |raw|
      invariant 0 <= k <= |raw|
      invariant s == "0x" + HexDigits(raw[..k])
    {
      assert raw[..k + 1][..k] == raw[..k];
      s := s + [HexDigit(raw[k] / 16), HexDigit(raw[k] % 16)];
      k := k + 1;
    }
    assert raw[..k] == raw;
  }

  function ReadHexDigits(s: string): Bytes
    decreases |s|
  {
    if |s| < 2 then []
    else
      var n := |s| - 2;
      ReadHexDigits(s[..n]) + [HexValue(s[n]) * 16 + HexValue(s[n + 1])]
  }

  lemma HexByte(b: byte)
    ensures HexValue(HexDigit(b / 16)) * 16 + HexValue(HexDigit(b % 16)) == b
    ensures HexDigit(b / 16) != ',' && HexDigit(b % 16) != ','
  {
  }

  lemma ReadHexSnoc(s: string, u: char, v: char)
    ensures ReadHexDigits(s + [u, v]) == ReadHexDigits(s) + [HexValue(u) * 16 + HexValue(v)]
  {
    assert (s + [u, v])[..|s|] == s;
  }

  lemma ReadHexByte(s: string, b: byte)
    ensures ReadHexDigits(s + [HexDigit(b / 16), HexDigit(b % 16)]) == ReadHexDigits(s) + [b]
  {
    ReadHexSnoc(s, HexDigit(b / 16), HexDigit(b % 16));
    HexByte(b);
  }

  lemma {:induction false} HexReads(raw: Bytes)
    ensures ReadHexDigits(HexDigits(raw)) == raw
  {
    if raw != [] {
      var front, last := raw[..|raw| - 1], raw[|raw| - 1];
      HexReads(front);
      ReadHexByte(HexDigits(front), last);
      assert front + [last] == raw;
    }
  }

  lemma {:induction false} HexPlain(raw: Bytes)
    ensures ',' !in HexDigits(raw)
  {
    if raw != [] {
      HexPlain(raw[..|raw| - 1]);
      HexByte(raw[|raw| - 1]);
    }
  }

  /** Distinct byte strings print differently, and no print holds a comma. */
  lemma HexInjective(a: Bytes, b: Bytes)
    ensures Hex(a) == Hex(b) ==> a == b
    ensures ',' !in Hex(a)
  {
    HexReads(a);
    HexReads(b);
    HexPlain(a);
    if a != [] && b != [] {
      assert Hex(a)[2..] == HexDigits(a) && Hex(b)[2..] == HexDigits(b);
    }
  }

  /** Digits of the lower case, two a byte with the high one first. */
  lemma HexAt(raw: Bytes, k: nat)
    requires k < |raw|
    ensures |Hex(raw)| == 2 + 2 * |raw| && Hex(raw)[..2] == "0x"
    ensures Hex(raw)[2 + 2 * k] == "0123456789abcdef"[raw[k] / 16]
    ensures Hex(raw)[2 + 2 * k + 1] == "0123456789abcdef"[raw[k] % 16]
  {
    DigitsAt(raw, k);
  }

  lemma {:induction false} DigitsAt(raw: Bytes, k: nat)
    requires k < |raw|
    ensures |HexDigits(raw)| == 2 * |raw|
    ensures HexDigits(raw)[2 * k] == "0123456789abcdef"[raw[k] / 16]
    ensures HexDigits(raw)[2 * k + 1] == "0123456789abcdef"[raw[k] % 16]
  {
    var last := |raw| - 1;
    DigitIs(raw[k] / 16);
    DigitIs(raw[k] % 16);
    if last > 0 {
      DigitsAt(raw[..last], if k < last then k else 0);
    }
  }

  lemma DigitIs(v: nat)
    requires v < 16
    ensures HexDigit(v) == "0123456789abcdef"[v]
  {
  }
}
