/** Standard base64 (section 4 of RFC 4648) with the strict decoder: padding required, spare bits zero. */
module Base64 {
  import opened Packets
  import opened Wrappers

  type sextet = x: int | 0 <= x < 64

  const PAD := '='

  function Symbol(v: sextet): char {
    if v < 26 then ('A' as int + v) as char
    else if v < 52 then ('a' as int + v - 26) as char
    else if v < 62 then ('0' as int + v - 52) as char
    else if v == 62 then '+' else '/'
  }

  function Value(c: char): Option<sextet> {
    if 'A' <= c <= 'Z' then Some(c as int - 'A' as int)
    else if 'a' <= c <= 'z' then Some(c as int - 'a' as int + 26)
    else if '0' <= c <= '9' then Some(c as int - '0' as int + 52)
    else if c == '+' then Some(62) else if c == '/' then Some(63) else None
  }

  lemma SymbolValue(v: sextet)
    ensures Value(Symbol(v)) == Some(v) && Symbol(v) != PAD
  {
  }

  lemma ValueSymbol(c: char)
    ensures Value(c).Some? ==> Symbol(Value(c).value) == c
    ensures c == PAD ==> Value(c).None?
  {
  }

  // ── Three bytes as four sextets ─────────────────────────────────────────

  function S0(a: byte): sextet { a / 4 }

  function S1(a: byte, b: byte): sextet { a % 4 * 16 + b / 16 }

  function S2(b: byte, c: byte): sextet { b % 16 * 4 + c / 64 }

  function S3(c: byte): sextet { c % 64 }

  function B0(u: sextet, v: sextet): byte { u * 4 + v / 16 }

  function B1(v: sextet, w: sextet): byte { v % 16 * 16 + w / 4 }

  function B2(w: sextet, x: sextet): byte { w % 4 * 64 + x }

  /** Bits past the last byte are zeros. */
  function Pack(data: Bytes): seq<sextet> {
    if data == [] then []
    else if |data| == 1 then [S0(data[0]), S1(data[0], 0)]
    else if |data| == 2 then [S0(data[0]), S1(data[0], data[1]), S2(data[1], 0)]
    else [S0(data[0]), S1(data[0], data[1]), S2(data[1], data[2]), S3(data[2])] + Pack(data[3..])
  }

  /** Bits past the last byte must be zeros. */
  function Unpack(s: seq<sextet>): Option<Bytes> {
    if s == [] then Some([])
    else if |s| == 1 then None
    else if |s| == 2 then
      if s[1] % 16 == 0 then Some([B0(s[0], s[1])]) else None
    else if |s| == 3 then
      if s[2] % 4 == 0 then Some([B0(s[0], s[1]), B1(s[1], s[2])]) else None
    else
      match Unpack(s[4..])
      case None => None
      case Some(rest) => Some([B0(s[0], s[1]), B1(s[1], s[2]), B2(s[2], s[3])] + rest)
  }

  lemma Regroup(a: byte, b: byte, c: byte)
    ensures B0(S0(a), S1(a, b)) == a && B1(S1(a, b), S2(b, c)) == b && B2(S2(b, c), S3(c)) == c
    ensures S1(a, 0) % 16 == 0 && S2(b, 0) % 4 == 0
  {
    FirstTwo(a, b);
    LastOne(b, c);
  }

  lemma FirstTwo(a: byte, b: byte)
    ensures B0(S0(a), S1(a, b)) == a && S1(a, b) % 16 == b / 16
    ensures S1(a, 0) % 16 == 0
  {
  }

  lemma LastOne(b: byte, c: byte)
    ensures S2(b, c) / 4 == b % 16 && B2(S2(b, c), S3(c)) == c
    ensures S2(b, 0) % 4 == 0
  {
  }

  lemma RespreadUpper(u: sextet, v: sextet, w: sextet)
    ensures S0(B0(u, v)) == u && S1(B0(u, v), B1(v, w)) == v
    ensures v % 16 == 0 ==> S1(B0(u, v), 0) == v
  {
  }

  lemma RespreadLower(v: sextet, w: sextet, x: sextet)
    ensures S2(B1(v, w), B2(w, x)) == w && S3(B2(w, x)) == x
  {
    assert B2(w, x) / 64 == w % 4 && B2(w, x) % 64 == x;
    assert B1(v, w) % 16 == w / 4;
  }

  lemma RespreadLast(v: sextet, w: sextet)
    requires w % 4 == 0
    ensures S2(B1(v, w), 0) == w
  {
  }

  lemma UnpackGroup(u: sextet, v: sextet, w: sextet, x: sextet, rest: seq<sextet>)
    requires Unpack(rest).Some?
    ensures Unpack([u, v, w, x] + rest) == Some([B0(u, v), B1(v, w), B2(w, x)] + Unpack(rest).value)
  {
    assert ([u, v, w, x] + rest)[4..] == rest;
  }

  lemma UnpackTail(u: sextet, v: sextet, w: sextet)
    ensures v % 16 == 0 ==> Unpack([u, v]) == Some([B0(u, v)])
    ensures w % 4 == 0 ==> Unpack([u, v, w]) == Some([B0(u, v), B1(v, w)])
  {
  }

  lemma UnpackOne(a: byte)
    ensures Unpack(Pack([a])) == Some([a])
  {
    UnpackTail(S0(a), S1(a, 0), 0);
    Regroup(a, 0, 0);
  }

  lemma UnpackTwo(a: byte, b: byte)
    ensures Unpack(Pack([a, b])) == Some([a, b])
  {
    UnpackTail(S0(a), S1(a, b), S2(b, 0));
    Regroup(a, b, 0);
  }

  lemma {:induction false} UnpackPack(data: Bytes)
    ensures Unpack(Pack(data)) == Some(data)
  {
    if data == [] {
    } else if |data| == 1 {
      UnpackOne(data[0]);
      assert data == [data[0]];
    } else if |data| == 2 {
      UnpackTwo(data[0], data[1]);
      assert data == [data[0], data[1]];
    } else {
      var a, b, c := data[0], data[1], data[2];
      UnpackPack(data[3..]);
      UnpackGroup(S0(a), S1(a, b), S2(b, c), S3(c), Pack(data[3..]));
      Regroup(a, b, c);
      assert data == [a, b, c] + data[3..];
    }
  }

  lemma {:induction false} PackUnpack(s: seq<sextet>)
    requires Unpack(s).Some?
    ensures Pack(Unpack(s).value) == s
  {
    if |s| == 2 {
      RespreadUpper(s[0], s[1], 0);
    } else if |s| == 3 {
      RespreadUpper(s[0], s[1], s[2]);
      RespreadLast(s[1], s[2]);
    } else if |s| >= 4 {
      RespreadUpper(s[0], s[1], s[2]);
      RespreadLower(s[1], s[2], s[3]);
      PackUnpack(s[4..]);
      assert Unpack(s).value[3..] == Unpack(s[4..]).value;
    }
  }

  // ── Sextets as text ─────────────────────────────────────────────────────

  function Text(s: seq<sextet>): string {
    if s == [] then ""
    else if |s| == 1 then [Symbol(s[0]), PAD, PAD, PAD]
    else if |s| == 2 then [Symbol(s[0]), Symbol(s[1]), PAD, PAD]
    else if |s| == 3 then [Symbol(s[0]), Symbol(s[1]), Symbol(s[2]), PAD]
    else [Symbol(s[0]), Symbol(s[1]), Symbol(s[2]), Symbol(s[3])] + Text(s[4..])
  }

  /** At least two symbols in the last four, and padding nowhere else. */
  function Read(t: string): Option<seq<sextet>> {
    if t == "" then Some([])
    else if |t| < 4 then None
    else
      var u, v, w, x := Value(t[0]), Value(t[1]), Value(t[2]), Value(t[3]);
      if u.None? || v.None? then None
      else if |t| == 4 && t[2] == PAD && t[3] == PAD then Some([u.value, v.value])
      else if w.None? then None
      else if |t| == 4 && t[3] == PAD then Some([u.value, v.value, w.value])
      else if x.None? || Read(t[4..]).None? then None
      else Some([u.value, v.value, w.value, x.value] + Read(t[4..]).value)
  }

  lemma ReadGroup(u: sextet, v: sextet, w: sextet, x: sextet, rest: string)
    requires Read(rest).Some?
    ensures Read([Symbol(u), Symbol(v), Symbol(w), Symbol(x)] + rest) == Some([u, v, w, x] + Read(rest).value)
  {
    SymbolValue(u);
    SymbolValue(v);
    SymbolValue(w);
    SymbolValue(x);
    assert ([Symbol(u), Symbol(v), Symbol(w), Symbol(x)] + rest)[4..] == rest;
  }

  lemma ReadTail(s: seq<sextet>)
    requires 2 <= |s| <= 3
    ensures Read(Text(s)) == Some(s)
  {
    if |s| == 3 {
      ReadThree(s[0], s[1], s[2]);
      assert s == [s[0], s[1], s[2]];
    } else {
      ReadTwo(s[0], s[1]);
      assert s == [s[0], s[1]];
    }
  }

  lemma ReadTwo(u: sextet, v: sextet)
    ensures Read([Symbol(u), Symbol(v), PAD, PAD]) == Some([u, v])
  {
    SymbolValue(u);
    SymbolValue(v);
  }

  lemma ReadThree(u: sextet, v: sextet, w: sextet)
    ensures Read([Symbol(u), Symbol(v), Symbol(w), PAD]) == Some([u, v, w])
  {
    SymbolValue(u);
    SymbolValue(v);
    SymbolValue(w);
  }

  lemma {:induction false} ReadText(s: seq<sextet>)
    requires |s| % 4 != 1
    ensures Read(Text(s)) == Some(s)
  {
    if s == [] {
    } else if |s| <= 3 {
      ReadTail(s);
    } else {
      ReadText(s[4..]);
      ReadGroup(s[0], s[1], s[2], s[3], Text(s[4..]));
      assert s == [s[0], s[1], s[2], s[3]] + s[4..];
    }
  }

  /** The last four symbols, padding among them. */
  lemma TailRead(t: string)
    requires |t| == 4 && t[3] == PAD && Read(t).Some?
    ensures 2 <= |Read(t).value| <= 3 && Text(Read(t).value) == t
  {
    ValueSymbol(t[0]);
    ValueSymbol(t[1]);
    ValueSymbol(t[2]);
    ValueSymbol(t[3]);
  }

  /** Four symbols without padding, and what comes after them. */
  lemma GroupRead(t: string) returns (u: sextet, v: sextet, w: sextet, x: sextet)
    requires |t| >= 4 && !(|t| == 4 && t[3] == PAD) && Read(t).Some?
    ensures Read(t[4..]).Some? && Read(t).value == [u, v, w, x] + Read(t[4..]).value
    ensures t[..4] == [Symbol(u), Symbol(v), Symbol(w), Symbol(x)]
  {
    u, v, w, x := Value(t[0]).value, Value(t[1]).value, Value(t[2]).value, Value(t[3]).value;
    ValueSymbol(t[0]);
    ValueSymbol(t[1]);
    ValueSymbol(t[2]);
    ValueSymbol(t[3]);
  }

  lemma TextGroup(u: sextet, v: sextet, w: sextet, x: sextet, rest: seq<sextet>)
    ensures Text([u, v, w, x] + rest) == [Symbol(u), Symbol(v), Symbol(w), Symbol(x)] + Text(rest)
  {
    assert ([u, v, w, x] + rest)[4..] == rest;
  }

  lemma {:induction false} TextRead(t: string)
    requires Read(t).Some?
    ensures Text(Read(t).value) == t
  {
    if t == "" {
    } else if |t| == 4 && t[3] == PAD {
      TailRead(t);
    } else {
      var u, v, w, x := GroupRead(t);
      TextRead(t[4..]);
      TextGroup(u, v, w, x, Read(t[4..]).value);
      assert t == t[..4] + t[4..];
    }
  }

  // ── The codec ───────────────────────────────────────────────────────────

  function Encode(data: Bytes): string {
    Text(Pack(data))
  }

  function Decode(t: string): Option<Bytes> {
    match Read(t)
    case None => None
    case Some(s) => Unpack(s)
  }

  lemma PackShift(data: Bytes)
    requires |data| >= 3
    ensures |Pack(data)| == 4 + |Pack(data[3..])| && Pack(data)[4..] == Pack(data[3..])
  {
  }

  lemma FourMore(n: nat)
    ensures (4 + n) % 4 == n % 4
  {
  }

  lemma {:induction false} PackLength(data: Bytes)
    ensures |Pack(data)| % 4 != 1
  {
    if |data| >= 3 {
      PackShift(data);
      FourMore(|Pack(data[3..])|);
      PackLength(data[3..]);
    }
  }

  /** Every byte string comes back, and the decoder accepts nothing but what the encoder writes. */
  lemma DecodesExactly(t: string, data: Bytes)
    ensures Decode(t) == Some(data) <==> t == Encode(data)
  {
    PackLength(data);
    ReadText(Pack(data));
    UnpackPack(data);
    if Decode(t) == Some(data) {
      TextRead(t);
      PackUnpack(Read(t).value);
    }
  }

  // ── Against the words of RFC 4648 ───────────────────────────────────────

  /** Table 1 of section 4. */
  lemma UpperCase(v: sextet)
    requires v < 26
    ensures Symbol(v) == "ABCDEFGHIJKLMNOPQRSTUVWXYZ"[v]
  {
  }

  lemma LowerCase(v: sextet)
    requires 26 <= v < 52
    ensures Symbol(v) == "abcdefghijklmnopqrstuvwxyz"[v - 26]
  {
  }

  lemma DigitsAndSigns(v: sextet)
    requires 52 <= v
    ensures Symbol(v) == "0123456789+/"[v - 52]
  {
  }

  lemma SymbolsAreTheAlphabet(v: sextet)
    ensures Symbol(v) == if v < 26 then "ABCDEFGHIJKLMNOPQRSTUVWXYZ"[v]
                         else if v < 52 then "abcdefghijklmnopqrstuvwxyz"[v - 26]
                         else "0123456789+/"[v - 52]
  {
    if v < 26 {
      UpperCase(v);
    } else if v < 52 {
      LowerCase(v);
    } else {
      DigitsAndSigns(v);
    }
  }

  /** Four digits in base 64, and three in base 256. */
  function Sextets(u: int, v: int, w: int, x: int): int {
    ((u * 64 + v) * 64 + w) * 64 + x
  }

  function Octets(a: int, b: int, c: int): int {
    (a * 256 + b) * 256 + c
  }

  lemma GroupNumber(a: byte, b: byte, c: byte)
    ensures Sextets(S0(a), S1(a, b), S2(b, c), S3(c)) == Octets(a, b, c)
  {
  }

  lemma RestNumber(a: byte, b: byte)
    ensures Sextets(S0(a), S1(a, 0), 0, 0) == Octets(a, 0, 0)
    ensures Sextets(S0(a), S1(a, b), S2(b, 0), 0) == Octets(a, b, 0)
  {
  }

  /** Group `k` of four sextets is the number that group `k` of three bytes is. */
  ghost predicate SameGroup(data: Bytes, s: seq<sextet>, k: nat)
    requires 3 * k + 3 <= |data| && 4 * k + 4 <= |s|
  {
    Sextets(s[4 * k], s[4 * k + 1], s[4 * k + 2], s[4 * k + 3])
    == Octets(data[3 * k], data[3 * k + 1], data[3 * k + 2])
  }

  /** Every three bytes are read as one 24-bit number and written as four 6-bit ones. */
  lemma {:induction false} PacksTheBits(data: Bytes, k: nat)
    requires 3 * k + 3 <= |data|
    ensures 4 * k + 4 <= |Pack(data)| && SameGroup(data, Pack(data), k)
  {
    if k == 0 {
      GroupNumber(data[0], data[1], data[2]);
    } else {
      PacksTheBits(data[3..], k - 1);
    }
  }

  /** What is left after the groups of three, with zeros for what is missing. */
  ghost predicate SameRest(data: Bytes, s: seq<sextet>) {
    match |data|
    case 0 => s == []
    case 1 => |s| == 2 && Sextets(s[0], s[1], 0, 0) == Octets(data[0], 0, 0)
    case 2 => |s| == 3 && Sextets(s[0], s[1], s[2], 0) == Octets(data[0], data[1], 0)
    case _ => false
  }

  lemma RestShifts(data: Bytes, s: seq<sextet>, n: nat)
    requires 1 <= n && 3 * n <= |data| && 4 * n <= |s|
    ensures data[3..][3 * (n - 1)..] == data[3 * n..] && s[4..][4 * (n - 1)..] == s[4 * n..]
  {
  }

  lemma {:induction false} PacksTheRest(data: Bytes)
    ensures var n := |data| / 3;
            4 * n <= |Pack(data)| && SameRest(data[3 * n..], Pack(data)[4 * n..])
  {
    if |data| >= 3 {
      PackShift(data);
      PacksTheRest(data[3..]);
      RestShifts(data, Pack(data), |data| / 3);
      assert |data[3..]| / 3 == |data| / 3 - 1;
    } else {
      PacksTheLast(data);
      assert data[0..] == data && Pack(data)[0..] == Pack(data);
    }
  }

  lemma PacksTheLast(data: Bytes)
    requires |data| < 3
    ensures SameRest(data, Pack(data))
  {
    if data != [] {
      RestNumber(data[0], if |data| == 2 then data[1] else 0);
    }
  }

  /** A symbol a sextet, and `=` up to a multiple of four. */
  lemma {:induction false} TextIs(s: seq<sextet>)
    ensures |Text(s)| == (|s| + 3) / 4 * 4
    ensures forall k :: 0 <= k < |s| ==> Text(s)[k] == Symbol(s[k])
    ensures forall k :: |s| <= k < |Text(s)| ==> Text(s)[k] == '='
  {
    if |s| >= 4 {
      TextIs(s[4..]);
      forall k | 0 <= k < |Text(s)| ensures k < |s| ==> Text(s)[k] == Symbol(s[k]) {
        assert k >= 4 ==> Text(s)[k] == Text(s[4..])[k - 4];
      }
    }
  }
}
