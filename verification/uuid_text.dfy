/** Key values as they come from the driver, the WAL and the saved state (pg/pk.go): UUID text in the form of
    section 4 of RFC 9562, and the conversion of a column value to a key. Text is a sequence of bytes
    written as characters. */
module UuidText {
  import opened Keys
  import opened Wrappers

  // ---- hexadecimal ----

  function HexDigit(n: int): char
    requires 0 <= n < 16
  {
    if n < 10 then '0' + n as char else 'a' + (n - 10) as char
  }

  /** The value of a hexadecimal digit of either case. */
  function HexValue(c: char): Option<int> {
    if '0' <= c <= '9' then Some(c as int - '0' as int)
    else if 'a' <= c <= 'f' then Some(c as int - 'a' as int + 10)
    else if 'A' <= c <= 'F' then Some(c as int - 'A' as int + 10)
    else None
  }

  function Lower(c: char): char {
    if 'A' <= c <= 'Z' then (c as int + 32) as char else c
  }

  predicate IsHex(s: string) {
    forall i :: 0 <= i < |s| ==> HexValue(s[i]).Some?
  }

  predicate Dashless(s: string) {
    forall i :: 0 <= i < |s| ==> s[i] != '-'
  }

  lemma DigitOfValue(c: char)
    requires HexValue(c).Some?
    ensures 0 <= HexValue(c).value < 16 && HexDigit(HexValue(c).value) == Lower(c)
  {
  }

  lemma ValueOfDigit(n: int)
    requires 0 <= n < 16
    ensures HexValue(HexDigit(n)) == Some(n) && HexDigit(n) != '-'
  {
  }

  /** Two digits per byte, the high one first. */
  function Hex(bytes: seq<Byte>): (s: string)
    ensures |s| == 2 * |bytes|
    ensures forall i :: 0 <= i < |bytes| ==>
              s[2 * i] == HexDigit(bytes[i] / 16) && s[2 * i + 1] == HexDigit(bytes[i] % 16)
  {
    if bytes == [] then ""
    else
      var n := |bytes| - 1;
      Hex(bytes[..n]) + [HexDigit(bytes[n] / 16), HexDigit(bytes[n] % 16)]
  }

  /** The bytes spelled by an even number of digits. */
  function Unhex(s: string): (bytes: seq<Byte>)
    requires |s| % 2 == 0 && IsHex(s)
    ensures |bytes| == |s| / 2
    ensures forall i :: 0 <= i < |bytes| ==> bytes[i] == HexValue(s[2 * i]).value * 16 + HexValue(s[2 * i + 1]).value
  {
    seq(|s| / 2, i requires 0 <= i < |s| / 2 =>
      DigitOfValue(s[2 * i]); DigitOfValue(s[2 * i + 1]); HexValue(s[2 * i]).value * 16 + HexValue(s[2 * i + 1]).value)
  }

  lemma HexIsHex(bytes: seq<Byte>)
    ensures IsHex(Hex(bytes)) && Dashless(Hex(bytes))
  {
    var s := Hex(bytes);
    forall i | 0 <= i < |s| ensures HexValue(s[i]).Some? && s[i] != '-' {
      var b := bytes[i / 2];
      assert s[i] == HexDigit(if i % 2 == 0 then b / 16 else b % 16) by {
        assert i == 2 * (i / 2) || i == 2 * (i / 2) + 1;
      }
    }
  }

  lemma UnhexOfHex(bytes: seq<Byte>)
    ensures IsHex(Hex(bytes)) && Unhex(Hex(bytes)) == bytes
  {
    HexIsHex(bytes);
    forall i | 0 <= i < |bytes| ensures Unhex(Hex(bytes))[i] == bytes[i] {
      ValueOfDigit(bytes[i] / 16);
      ValueOfDigit(bytes[i] % 16);
    }
  }

  /** Spelling the bytes of some digits again gives the digits in lower case. */
  lemma HexOfUnhex(s: string, i: nat)
    requires |s| % 2 == 0 && IsHex(s) && i < |s|
    ensures Hex(Unhex(s))[i] == Lower(s[i])
  {
    var k := i / 2;
    DigitOfValue(s[2 * k]);
    DigitOfValue(s[2 * k + 1]);
    var b := Unhex(s)[k];
    assert b / 16 == HexValue(s[2 * k]).value && b % 16 == HexValue(s[2 * k + 1]).value;
    assert i == 2 * k || i == 2 * k + 1;
  }

  // ---- the text form of a UUID ----

  function Text(u: Uuid): string {
    Grouped(u[0..4], u[4..6], u[6..8], u[8..10], u[10..16])
  }

  function Grouped(a: seq<Byte>, b: seq<Byte>, c: seq<Byte>, d: seq<Byte>, e: seq<Byte>): string {
    Hex(a) + "-" + Hex(b) + "-" + Hex(c) + "-" + Hex(d) + "-" + Hex(e)
  }

  function WithoutDashes(s: string): string {
    if s == "" then ""
    else
      var last, rest := s[|s| - 1], WithoutDashes(s[..|s| - 1]);
      if last == '-' then rest else rest + [last]
  }

  function Parse(s: string): Option<Uuid> {
    var cleaned := WithoutDashes(s);
    if |cleaned| == 32 && IsHex(cleaned) then Some(Unhex(cleaned)) else None
  }

  lemma {:induction false} WithoutDashesConcat(a: string, b: string)
    ensures WithoutDashes(a + b) == WithoutDashes(a) + WithoutDashes(b)
    decreases |b|
  {
    if b == "" {
      assert a + b == a;
    } else {
      assert (a + b)[..|a + b| - 1] == a + b[..|b| - 1];
      WithoutDashesConcat(a, b[..|b| - 1]);
    }
  }

  lemma {:induction false} NoDashes(s: string)
    requires Dashless(s)
    ensures WithoutDashes(s) == s
    decreases |s|
  {
    if s != "" {
      NoDashes(s[..|s| - 1]);
      assert s == s[..|s| - 1] + [s[|s| - 1]];
    }
  }

  lemma {:induction false} HexConcat(a: seq<Byte>, b: seq<Byte>)
    ensures Hex(a + b) == Hex(a) + Hex(b)
    decreases |b|
  {
    if b == [] {
      assert a + b == a;
    } else {
      assert (a + b)[..|a + b| - 1] == a + b[..|b| - 1];
      HexConcat(a, b[..|b| - 1]);
    }
  }

  lemma DashAppended(s: string, bytes: seq<Byte>)
    ensures WithoutDashes(s + "-" + Hex(bytes)) == WithoutDashes(s) + Hex(bytes)
  {
    HexIsHex(bytes);
    NoDashes(Hex(bytes));
    WithoutDashesConcat(s + "-", Hex(bytes));
    WithoutDashesConcat(s, "-");
    assert "-"[..0] == "";
  }

  lemma GroupedWithoutDashes(a: seq<Byte>, b: seq<Byte>, c: seq<Byte>, d: seq<Byte>, e: seq<Byte>)
    ensures WithoutDashes(Grouped(a, b, c, d, e)) == Hex(a) + Hex(b) + Hex(c) + Hex(d) + Hex(e)
  {
    HexIsHex(a);
    NoDashes(Hex(a));
    DashAppended(Hex(a), b);
    DashAppended(Hex(a) + "-" + Hex(b), c);
    DashAppended(Hex(a) + "-" + Hex(b) + "-" + Hex(c), d);
    DashAppended(Hex(a) + "-" + Hex(b) + "-" + Hex(c) + "-" + Hex(d), e);
  }

  lemma HexOfGroups(a: seq<Byte>, b: seq<Byte>, c: seq<Byte>, d: seq<Byte>, e: seq<Byte>)
    ensures Hex(a + b + c + d + e) == Hex(a) + Hex(b) + Hex(c) + Hex(d) + Hex(e)
  {
    HexConcat(a, b);
    HexConcat(a + b, c);
    HexConcat(a + b + c, d);
    HexConcat(a + b + c + d, e);
  }

  /** Without its dashes the text is the 32 digits of the 16 bytes. */
  lemma TextWithoutDashes(u: Uuid)
    ensures WithoutDashes(Text(u)) == Hex(u)
  {
    GroupedWithoutDashes(u[0..4], u[4..6], u[6..8], u[8..10], u[10..16]);
    HexOfGroups(u[0..4], u[4..6], u[6..8], u[8..10], u[10..16]);
    GroupsAreAll(u);
  }

  lemma GroupsAreAll(u: Uuid)
    ensures u[0..4] + u[4..6] + u[6..8] + u[8..10] + u[10..16] == u
  {
  }

  /** Every 16-byte value survives printing and parsing. */
  lemma ParseOfText(u: Uuid)
    ensures Parse(Text(u)) == Some(u)
  {
    TextWithoutDashes(u);
    UnhexOfHex(u);
  }

  /** Printing what was parsed gives the canonical form: the same digits in lower case, dashes in their places. */
  lemma TextOfParse(s: string)
    requires Parse(s).Some?
    ensures |WithoutDashes(Text(Parse(s).value))| == |WithoutDashes(s)|
    ensures forall i :: 0 <= i < |WithoutDashes(s)| ==>
              WithoutDashes(Text(Parse(s).value))[i] == Lower(WithoutDashes(s)[i])
    ensures |Text(Parse(s).value)| == 36
    ensures forall i :: 0 <= i < 36 ==> (Text(Parse(s).value)[i] == '-' <==> i in {8, 13, 18, 23})
  {
    TextWithoutDashes(Parse(s).value);
    forall i | 0 <= i < |WithoutDashes(s)|
      ensures WithoutDashes(Text(Parse(s).value))[i] == Lower(WithoutDashes(s)[i])
    {
      HexOfUnhex(WithoutDashes(s), i);
    }
    DashesInPlace(Parse(s).value);
  }

  lemma DashesInPlace(u: Uuid)
    ensures |Text(u)| == 36 && forall i :: 0 <= i < 36 ==> (Text(u)[i] == '-' <==> i in {8, 13, 18, 23})
  {
    HexIsHex(u[0..4]);
    HexIsHex(u[4..6]);
    HexIsHex(u[6..8]);
    HexIsHex(u[8..10]);
    HexIsHex(u[10..16]);
    DashesBetween(Hex(u[0..4]), Hex(u[4..6]), Hex(u[6..8]), Hex(u[8..10]), Hex(u[10..16]));
  }

  lemma DashesBetween(a: string, b: string, c: string, d: string, e: string)
    requires |a| == 8 && |b| == |c| == |d| == 4 && |e| == 12
    requires Dashless(a) && Dashless(b) && Dashless(c) && Dashless(d) && Dashless(e)
    ensures var t := a + "-" + b + "-" + c + "-" + d + "-" + e;
            |t| == 36 && forall i :: 0 <= i < 36 ==> (t[i] == '-' <==> i in {8, 13, 18, 23})
  {
  }

  // ---- the order of the texts ----

  /** The order of strings: the first character that differs decides. */
  predicate TextLess(s: string, t: string)
    requires |s| == |t|
  {
    exists i :: 0 <= i < |s| && s[..i] == t[..i] && s[i] < t[i]
  }

  /** Where the two digits of byte k stand in the text. */
  function Place(k: nat): (p: nat)
    requires k < 16
    ensures p < 35
  {
    2 * k + (if k < 4 then 0 else if k < 6 then 1 else if k < 8 then 2 else if k < 10 then 3 else 4)
  }

  lemma DigitsAt(u: Uuid, k: nat)
    requires k < 16
    ensures |Text(u)| == 36
    ensures Text(u)[Place(k)] == HexDigit(u[k] / 16) && Text(u)[Place(k) + 1] == HexDigit(u[k] % 16)
  {
    var a, b, c, d, e := Hex(u[0..4]), Hex(u[4..6]), Hex(u[6..8]), Hex(u[8..10]), Hex(u[10..16]);
    PartsOf(a, b, c, d, e);
    var t := Text(u);
    if k < 4 {
      DigitIn(t, 0, u[0..4], k);
    } else if k < 6 {
      DigitIn(t, 9, u[4..6], k - 4);
    } else if k < 8 {
      DigitIn(t, 14, u[6..8], k - 6);
    } else if k < 10 {
      DigitIn(t, 19, u[8..10], k - 8);
    } else {
      DigitIn(t, 24, u[10..16], k - 10);
    }
  }

  lemma PartsOf(a: string, b: string, c: string, d: string, e: string)
    requires |a| == 8 && |b| == |c| == |d| == 4 && |e| == 12
    ensures var t := a + "-" + b + "-" + c + "-" + d + "-" + e;
            |t| == 36 && t[0..8] == a && t[9..13] == b && t[14..18] == c && t[19..23] == d && t[24..36] == e
  {
  }

  lemma DigitIn(t: string, at: nat, bytes: seq<Byte>, k: nat)
    requires k < |bytes| && at + 2 * |bytes| <= |t| && t[at..at + 2 * |bytes|] == Hex(bytes)
    ensures t[at + 2 * k] == HexDigit(bytes[k] / 16) && t[at + 2 * k + 1] == HexDigit(bytes[k] % 16)
  {
    assert t[at..at + 2 * |bytes|][2 * k] == HexDigit(bytes[k] / 16);
    assert t[at..at + 2 * |bytes|][2 * k + 1] == HexDigit(bytes[k] % 16);
  }

  /** Before the digits of byte k the text is made of the bytes before it. */
  lemma SameStart(u: Uuid, v: Uuid, k: nat)
    requires k < 16 && u[..k] == v[..k]
    ensures Text(u)[..Place(k)] == Text(v)[..Place(k)]
  {
    DashesInPlace(u);
    DashesInPlace(v);
    forall i | 0 <= i < Place(k) ensures Text(u)[i] == Text(v)[i] {
      if i !in {8, 13, 18, 23} {
        var j := if i < 8 then i / 2 else if i < 13 then (i - 1) / 2 else if i < 18 then (i - 2) / 2
                 else if i < 23 then (i - 3) / 2 else (i - 4) / 2;
        assert i == Place(j) || i == Place(j) + 1;
        assert u[j] == u[..k][j] == v[..k][j] == v[j];
        DigitsAt(u, j);
        DigitsAt(v, j);
      }
    }
  }

  lemma DigitsAscend(m: int, n: int)
    requires 0 <= m < n < 16
    ensures HexDigit(m) < HexDigit(n)
  {
  }

  lemma SmallerByteSmallerText(u: Uuid, v: Uuid, k: nat)
    requires k < 16 && u[..k] == v[..k] && u[k] < v[k]
    ensures |Text(u)| == |Text(v)| == 36 && TextLess(Text(u), Text(v))
  {
    SameStart(u, v, k);
    DigitsAt(u, k);
    DigitsAt(v, k);
    if u[k] / 16 < v[k] / 16 {
      DigitsAscend(u[k] / 16, v[k] / 16);
    } else {
      DigitsAscend(u[k] % 16, v[k] % 16);
    }
    LessAt(Text(u), Text(v), Place(k));
  }

  lemma LessAt(s: string, t: string, p: nat)
    requires |s| == |t| && p + 1 < |s| && s[..p] == t[..p]
    requires s[p] < t[p] || (s[p] == t[p] && s[p + 1] < t[p + 1])
    ensures TextLess(s, t)
  {
    if s[p] == t[p] {
      assert s[..p + 1] == s[..p] + [s[p]];
      assert t[..p + 1] == t[..p] + [t[p]];
    }
  }

  lemma TextLessIsAsymmetric(s: string, t: string)
    requires |s| == |t| && TextLess(s, t)
    ensures !TextLess(t, s) && s != t
  {
    var i :| 0 <= i < |s| && s[..i] == t[..i] && s[i] < t[i];
    forall j | 0 <= j < i ensures s[j] == t[j] {
      assert s[..i][j] == t[..i][j];
    }
    forall j | i < j < |s| ensures t[..j] != s[..j] {
      assert t[..j][i] == t[i] && s[..j][i] == s[i];
    }
  }

  /** The texts are ordered as the 128-bit numbers are, and so as uuidCmp orders the values. */
  lemma TextOrderIsNumericOrder(u: Uuid, v: Uuid)
    ensures |Text(u)| == |Text(v)| == 36
    ensures TextLess(Text(u), Text(v)) <==> Number(u) < Number(v)
  {
    var k := FirstDifference(u, v, 0);
    if k == 16 {
      DashesInPlace(u);
    } else if u[k] < v[k] {
      FirstDifferenceDecides(u, v, k);
      SmallerByteSmallerText(u, v, k);
    } else {
      FirstDifferenceDecides(v, u, k);
      SmallerByteSmallerText(v, u, k);
      TextLessIsAsymmetric(Text(v), Text(u));
    }
  }

  // ---- the code ----

  /** hex.Encode into part of a buffer. */
  method Encode(dst: array<char>, at: nat, src: seq<Byte>)
    requires at + 2 * |src| <= dst.Length
    modifies dst
    ensures dst[at..at + 2 * |src|] == Hex(src)
    ensures forall j :: 0 <= j < dst.Length && !(at <= j < at + 2 * |src|) ==> dst[j] == old(dst[j])
  {
    for i := 0 to |src|
      invariant forall k :: 0 <= k < i ==>
                  dst[at + 2 * k] == HexDigit(src[k] / 16) && dst[at + 2 * k + 1] == HexDigit(src[k] % 16)
      invariant forall j :: 0 <= j < dst.Length && !(at <= j < at + 2 * i) ==> dst[j] == old(dst[j])
    {
      dst[at + 2 * i], dst[at + 2 * i + 1] := HexDigit(src[i] / 16), HexDigit(src[i] % 16);
    }
    assert forall k: nat :: k < |src| ==> Spelled(dst[..], at, src, k);
    SpelledIsHex(dst[..], at, src);
  }

  predicate Spelled(t: string, at: nat, src: seq<Byte>, k: nat)
    requires k < |src| && at + 2 * |src| <= |t|
  {
    t[at + 2 * k] == HexDigit(src[k] / 16) && t[at + 2 * k + 1] == HexDigit(src[k] % 16)
  }

  lemma {:induction false} SpelledIsHex(t: string, at: nat, src: seq<Byte>)
    requires at + 2 * |src| <= |t| && forall k: nat :: k < |src| ==> Spelled(t, at, src, k)
    ensures t[at..at + 2 * |src|] == Hex(src)
    decreases |src|
  {
    if src != [] {
      var n := |src| - 1;
      forall k: nat | k < n ensures Spelled(t, at, src[..n], k) {
        assert Spelled(t, at, src, k);
      }
      SpelledIsHex(t, at, src[..n]);
      assert Spelled(t, at, src, n);
      assert t[at..at + 2 * |src|] == t[at..at + 2 * n] + [t[at + 2 * n], t[at + 2 * n + 1]];
    }
  }

  lemma AssembledFrom(t: string, a: string, b: string, c: string, d: string, e: string)
    requires |t| == 36 && t[0..8] == a && t[9..13] == b && t[14..18] == c && t[19..23] == d && t[24..36] == e
    requires t[8] == t[13] == t[18] == t[23] == '-'
    ensures t == a + "-" + b + "-" + c + "-" + d + "-" + e
  {
  }

  /** uuidToString: the first three groups and the last two. */
  method UuidToString(u: Uuid) returns (s: string)
    ensures s == Text(u)
  {
    var b := new char[36];
    EncodeFront(b, u);
    EncodeBack(b, u);
    s := b[..];
    assert s[0..8] == s[..19][0..8] && s[9..13] == s[..19][9..13] && s[14..18] == s[..19][14..18];
    AssembledFrom(s, Hex(u[0..4]), Hex(u[4..6]), Hex(u[6..8]), Hex(u[8..10]), Hex(u[10..16]));
  }

  method EncodeFront(b: array<char>, u: Uuid)
    requires b.Length == 36
    modifies b
    ensures b[0..8] == Hex(u[0..4]) && b[9..13] == Hex(u[4..6]) && b[14..18] == Hex(u[6..8])
    ensures b[8] == b[13] == b[18] == '-'
  {
    Encode(b, 0, u[0..4]);
    b[8] := '-';
    Encode(b, 9, u[4..6]);
    b[13] := '-';
    Encode(b, 14, u[6..8]);
    b[18] := '-';
  }

  method EncodeBack(b: array<char>, u: Uuid)
    requires b.Length == 36
    modifies b
    ensures b[..19] == old(b[..19])
    ensures b[19..23] == Hex(u[8..10]) && b[24..36] == Hex(u[10..16]) && b[23] == '-'
  {
    Encode(b, 19, u[8..10]);
    b[23] := '-';
    Encode(b, 24, u[10..16]);
  }

  /** strings.ReplaceAll(s, "-", "") */
  method RemoveDashes(s: string) returns (cleaned: string)
    ensures cleaned == WithoutDashes(s)
  {
    cleaned := "";
    for i := 0 to |s|
      invariant cleaned == WithoutDashes(s[..i])
    {
      assert s[..i + 1][..i] == s[..i];
      if s[i] != '-' {
        cleaned := cleaned + [s[i]];
      }
    }
    assert s[..|s|] == s;
  }

  /** hex.DecodeString on an even number of characters; None is its error. */
  method Decode(s: string) returns (bytes: Option<seq<Byte>>)
    requires |s| % 2 == 0
    ensures bytes == if IsHex(s) then Some(Unhex(s)) else None
  {
    var decoded: seq<Byte> := [];
    for i := 0 to |s| / 2
      invariant |decoded| == i && IsHex(s[..2 * i])
      invariant forall k :: 0 <= k < i ==> decoded[k] == HexValue(s[2 * k]).value * 16 + HexValue(s[2 * k + 1]).value
    {
      var high, low := HexValue(s[2 * i]), HexValue(s[2 * i + 1]);
      if high.None? || low.None? {
        assert !IsHex(s);
        return None;
      }
      DigitOfValue(s[2 * i]);
      DigitOfValue(s[2 * i + 1]);
      assert IsHex(s[..2 * i + 2]);
      decoded := decoded + [high.value * 16 + low.value];
    }
    assert s[..2 * (|s| / 2)] == s;
    assert decoded == Unhex(s);
    bytes := Some(decoded);
  }

  /** uuidFromString; None is its error. */
  method UuidFromString(s: string) returns (u: Option<Uuid>)
    ensures u == Parse(s)
  {
    var cleaned := RemoveDashes(s);
    if |cleaned| != 32 {
      return None;
    }
    var bytes := Decode(cleaned);
    match bytes
    case None => u := None;
    case Some(b) => u := Some(b);
  }

  // ---- from column values to keys ----

  /** strconv.ParseInt(s, 10, 64); None is its error. */
  function ParseInt(s: string): Option<Int64> {
    var negative := s != "" && s[0] == '-';
    var digits := if s != "" && (s[0] == '-' || s[0] == '+') then s[1..] else s;
    if digits == "" || !IsDecimal(digits) then None
    else
      var size: int := Decimal(digits);
      var n := if negative then -size else size;
      if MIN_INT64 <= n <= MAX_INT64 then Some(n) else None
  }

  predicate IsDecimal(s: string) {
    forall i :: 0 <= i < |s| ==> '0' <= s[i] <= '9'
  }

  function Decimal(s: string): nat
    requires IsDecimal(s)
  {
    if s == "" then 0 else Decimal(s[..|s| - 1]) * 10 + (s[|s| - 1] as int - '0' as int)
  }

  /** The dynamic types pkFromValue tells apart. */
  datatype Value = Int64Value(n: Int64) | Int32Value(m: int) | BytesValue(u: Uuid) | TextValue(s: string) | OtherValue

  predicate Typed(v: Value) {
    v.Int32Value? ==> -0x8000_0000 <= v.m <= 0x7fff_ffff
  }

  function FromValue(v: Value): PK
    requires Typed(v)
  {
    match v
    case Int64Value(n) => IntKey(n)
    case Int32Value(m) => IntKey(m)
    case BytesValue(u) => UuidKey(u)
    case TextValue(s) =>
      if ParseInt(s).Some? then IntKey(ParseInt(s).value)
      else if Parse(s).Some? then UuidKey(Parse(s).value)
      else Unset
    case OtherValue => Unset
  }

  /** A number as the driver writes it. */
  function DecimalText(n: int): string {
    if n < 0 then "-" + Digits(-n) else Digits(n)
  }

  function Digits(k: nat): string {
    if k < 10 then [DecimalDigit(k)] else Digits(k / 10) + [DecimalDigit(k % 10)]
  }

  function DecimalDigit(d: nat): char
    requires d < 10
  {
    "0123456789"[d]
  }

  lemma {:induction false} DigitsAreDecimal(k: nat)
    ensures Digits(k) != "" && IsDecimal(Digits(k)) && Decimal(Digits(k)) == k
    decreases k
  {
    if k >= 10 {
      DigitsAreDecimal(k / 10);
      assert Digits(k)[..|Digits(k)| - 1] == Digits(k / 10);
    } else {
      assert Digits(k)[..0] == "";
    }
  }

  lemma DigitsAreRead(digits: string)
    requires digits != "" && IsDecimal(digits)
    ensures ParseInt(digits) == if Decimal(digits) <= MAX_INT64 then Some(Decimal(digits)) else None
  {
    assert '0' <= digits[0] <= '9';
  }

  lemma NegativeIsRead(digits: string, n: int)
    requires digits != "" && IsDecimal(digits) && n + Decimal(digits) == 0
    ensures ParseInt("-" + digits) == if MIN_INT64 <= n then Some(n) else None
  {
    assert ("-" + digits)[1..] == digits;
  }

  /** Reading the decimal text of a number gives it back exactly when it has 64 bits. */
  lemma DecimalTextIsRead(n: int)
    ensures ParseInt(DecimalText(n)) == if MIN_INT64 <= n <= MAX_INT64 then Some(n) else None
  {
    if n < 0 {
      DigitsAreDecimal(-n);
      NegativeIsRead(Digits(-n), n);
    } else {
      DigitsAreDecimal(n);
      DigitsAreRead(Digits(n));
    }
  }

  /** An integer column gives the same key whether the driver hands over the number or its text. */
  lemma NumberAndTextGiveTheSameKey(n: Int64)
    ensures FromValue(TextValue(DecimalText(n))) == FromValue(Int64Value(n)) == IntKey(n)
  {
    DecimalTextIsRead(n);
  }

  /** A UUID column gives the same key whether the driver hands over its bytes or its canonical text. */
  lemma TextAndBytesGiveTheSameKey(u: Uuid)
    ensures FromValue(TextValue(Text(u))) == FromValue(BytesValue(u))
  {
    ParseOfText(u);
    DashesInPlace(u);
    assert Text(u)[13] == '-' && Text(u)[1..][12] == '-';
  }

  /** Any other text of a UUID does so exactly when it is not also a decimal number of 64 bits. */
  lemma TextOfUuidIsItsKeyExactly(s: string)
    requires Parse(s).Some?
    ensures FromValue(TextValue(s)) == FromValue(BytesValue(Parse(s).value)) <==> ParseInt(s).None?
  {
  }

  /** Text without dashes can be: 32 digits with enough leading zeros are taken for an integer. */
  lemma UndashedTextMayBeTakenForAnInteger(s: string)
    requires |s| == 32 && s[31] == '1' && forall i :: 0 <= i < 31 ==> s[i] == '0'
    ensures Parse(s).Some? && FromValue(TextValue(s)) == IntKey(1)
  {
    NoDashes(s);
    LeadingZeros(s[..31]);
  }

  lemma {:induction false} LeadingZeros(s: string)
    requires forall i :: 0 <= i < |s| ==> s[i] == '0'
    ensures IsDecimal(s) && Decimal(s) == 0
    decreases |s|
  {
    if s != "" {
      LeadingZeros(s[..|s| - 1]);
    }
  }

  // ---- the saved form ----

  datatype Json = JsonNull | JsonNumber(n: int) | JsonString(s: string)

  /** MarshalJSON */
  method Marshal(p: PK) returns (j: Json)
    ensures Unmarshaled(j) == Some(p)
    ensures p.UuidKey? ==> j == JsonString(Text(p.u))
  {
    match p
    case IntKey(n) => j := JsonNumber(n);
    case UuidKey(u) =>
      ParseOfText(u);
      var s := UuidToString(u);
      j := JsonString(s);
    case Unset => j := JsonNull;
  }

  /** What UnmarshalJSON makes of a saved key; None is its error. */
  function Unmarshaled(j: Json): Option<PK> {
    match j
    case JsonNull => Some(Unset)
    case JsonNumber(n) => if MIN_INT64 <= n <= MAX_INT64 then Some(IntKey(n)) else None
    case JsonString(s) => if Parse(s).Some? then Some(UuidKey(Parse(s).value)) else None
  }
}
