// The deposit memo of an off-ramp order: its id packed into the 28 bytes a
// Stellar text memo may hold, in base64url without padding (sections 3.2 and
// 5 of RFC 4648). A character stands for a byte.
module Memos {
  import opened Prelude

  type Byte = b: nat | b < 256

  const MEMO_MAX_BYTES := 28
  const PAYLOAD_BYTES := 16
  const PREFIX := "off"

  // ---------------------------------------------------------------- base64url

  function Symbol(v: nat): char
    requires v < 64
  {
    if v < 26 then 'A' + v as char
    else if v < 52 then 'a' + (v - 26) as char
    else if v < 62 then '0' + (v - 52) as char
    else if v == 62 then '-' else '_'
  }

  function SymbolValue(c: char): nat {
    if 'A' <= c <= 'Z' then (c - 'A') as nat
    else if 'a' <= c <= 'z' then (c - 'a') as nat + 26
    else if '0' <= c <= '9' then (c - '0') as nat + 52
    else if c == '-' then 62 else 63
  }

  lemma SymbolRoundTrip(v: nat)
    requires v < 64
    ensures SymbolValue(Symbol(v)) == v
  {
  }

  // Three bytes give four symbols; one or two left over give two or three.
  function Base64(bytes: seq<Byte>): (text: string)
    ensures |text| == (4 * |bytes| + 2) / 3
  {
    if |bytes| == 0 then ""
    else if |bytes| == 1 then [Symbol(bytes[0] / 4), Symbol(bytes[0] % 4 * 16)]
    else if |bytes| == 2 then
      [Symbol(bytes[0] / 4), Symbol(bytes[0] % 4 * 16 + bytes[1] / 16), Symbol(bytes[1] % 16 * 4)]
    else
      [Symbol(bytes[0] / 4), Symbol(bytes[0] % 4 * 16 + bytes[1] / 16),
       Symbol(bytes[1] % 16 * 4 + bytes[2] / 64), Symbol(bytes[2] % 64)]
      + Base64(bytes[3..])
  }

  function First(a: nat, b: nat): nat {
    a * 4 + b / 16
  }

  function Second(b: nat, c: nat): nat {
    b % 16 * 16 + c / 4
  }

  function Third(c: nat, d: nat): nat {
    c % 4 * 64 + d
  }

  function Unbase64(text: string): seq<nat> {
    if |text| < 2 then []
    else
      var a, b := SymbolValue(text[0]), SymbolValue(text[1]);
      if |text| == 2 then [First(a, b)]
      else
        var c := SymbolValue(text[2]);
        if |text| == 3 then [First(a, b), Second(b, c)]
        else [First(a, b), Second(b, c), Third(c, SymbolValue(text[3]))] + Unbase64(text[4..])
  }

  lemma SixBits(x: Byte, y: Byte, z: Byte)
    ensures First(x / 4, x % 4 * 16 + y / 16) == x
    ensures Second(x % 4 * 16 + y / 16, y % 16 * 4 + z / 64) == y
    ensures Third(y % 16 * 4 + z / 64, z % 64) == z
  {
  }

  // Nothing is lost in the encoding.
  lemma {:induction false} Base64RoundTrip(bytes: seq<Byte>)
    ensures Unbase64(Base64(bytes)) == bytes
  {
    hide First, Second, Third, Symbol, SymbolValue;
    var x: Byte := if |bytes| > 0 then bytes[0] else 0;
    var y: Byte := if |bytes| > 1 then bytes[1] else 0;
    var z: Byte := if |bytes| > 2 then bytes[2] else 0;
    SixBits(x, y, z);
    SymbolRoundTrip(x / 4);
    SymbolRoundTrip(x % 4 * 16 + y / 16);
    SymbolRoundTrip(y % 16 * 4 + z / 64);
    SymbolRoundTrip(z % 64);
    if |bytes| > 2 {
      Base64RoundTrip(bytes[3..]);
      assert Base64(bytes)[4..] == Base64(bytes[3..]);
      assert bytes == [x, y, z] + bytes[3..];
    }
  }

  // ---------------------------------------------------------------- hexadecimal

  predicate IsHex(c: char) {
    '0' <= c <= '9' || 'a' <= c <= 'f' || 'A' <= c <= 'F'
  }

  function Lower(c: char): char {
    if 'A' <= c <= 'F' then 'a' + (c - 'A') else c
  }

  function HexValue(c: char): nat
    requires IsHex(c)
    ensures HexValue(c) < 16
  {
    if c <= '9' then (c - '0') as nat else if c >= 'a' then (c - 'a') as nat + 10 else (c - 'A') as nat + 10
  }

  predicate AllHex(s: string) {
    forall i :: 0 <= i < |s| ==> IsHex(s[i])
  }

  function DecodeHex(s: string): seq<Byte>
    requires AllHex(s) && |s| % 2 == 0
    ensures |DecodeHex(s)| == |s| / 2
  {
    if s == "" then [] else [HexValue(s[0]) * 16 + HexValue(s[1])] + DecodeHex(s[2..])
  }

  predicate SameButCase(s: string, t: string) {
    |s| == |t| && forall i :: 0 <= i < |s| ==> Lower(s[i]) == Lower(t[i])
  }

  lemma {:induction false} SameBytesSameHex(s: string, t: string)
    requires AllHex(s) && AllHex(t) && |s| % 2 == 0 && |t| % 2 == 0
    ensures DecodeHex(s) == DecodeHex(t) <==> SameButCase(s, t)
  {
    if s != "" && t != "" {
      SameBytesSameHex(s[2..], t[2..]);
      HexDigits(s[0], t[0]);
      HexDigits(s[1], t[1]);
      var x, y := DecodeHex(s), DecodeHex(t);
      assert x[0] == HexValue(s[0]) * 16 + HexValue(s[1]) && y[0] == HexValue(t[0]) * 16 + HexValue(t[1]);
      assert x[1..] == DecodeHex(s[2..]) && y[1..] == DecodeHex(t[2..]);
      assert x == y <==> x[0] == y[0] && x[1..] == y[1..] by {
        assert x == [x[0]] + x[1..] && y == [y[0]] + y[1..];
      }
      assert SameButCase(s, t) <==> Lower(s[0]) == Lower(t[0]) && Lower(s[1]) == Lower(t[1]) && SameButCase(s[2..], t[2..]) by {
        assert forall i :: 2 <= i < |s| ==> s[i] == s[2..][i - 2];
        assert forall i :: 2 <= i < |t| ==> t[i] == t[2..][i - 2];
      }
    }
  }

  lemma HexDigits(c: char, d: char)
    requires IsHex(c) && IsHex(d)
    ensures HexValue(c) == HexValue(d) <==> Lower(c) == Lower(d)
  {
  }

  // ---------------------------------------------------------------- memos

  function DropDashes(s: string): string {
    if s == "" then "" else DropDashes(s[..|s| - 1]) + (if s[|s| - 1] == '-' then "" else [s[|s| - 1]])
  }

  // An id that names sixteen bytes in hexadecimal, dashes aside.
  predicate PacksToBytes(id: string) {
    AllHex(DropDashes(id)) && |DropDashes(id)| == 2 * PAYLOAD_BYTES
  }

  function DepositMemo(id: string, digest: string -> seq<Byte>): string
    requires |digest(id)| >= PAYLOAD_BYTES
  {
    var normalized := DropDashes(id);
    if PacksToBytes(id) then PREFIX + Base64(DecodeHex(normalized))
    else if |PREFIX + normalized| <= MEMO_MAX_BYTES then PREFIX + normalized
    else PREFIX + Base64(digest(id)[..PAYLOAD_BYTES])
  }

  // Whatever the id, its memo fits.
  lemma MemoFits(id: string, digest: string -> seq<Byte>)
    requires |digest(id)| >= PAYLOAD_BYTES
    ensures 3 <= |DepositMemo(id, digest)| <= 28
    ensures DepositMemo(id, digest)[..3] == "off"
    ensures PacksToBytes(id) ==> |DepositMemo(id, digest)| == 25
  {
  }

  // The memo gives a packed id back, up to dashes and case: two of them share
  // a memo exactly when they name the same bytes.
  lemma MemoIdentifies(a: string, b: string, digest: string -> seq<Byte>)
    requires PacksToBytes(a) && PacksToBytes(b)
    requires |digest(a)| >= PAYLOAD_BYTES && |digest(b)| >= PAYLOAD_BYTES
    ensures DepositMemo(a, digest) == DepositMemo(b, digest) <==> SameButCase(DropDashes(a), DropDashes(b))
  {
    hide Base64, Unbase64, DropDashes;
    var x, y := DecodeHex(DropDashes(a)), DecodeHex(DropDashes(b));
    SameBytesSameHex(DropDashes(a), DropDashes(b));
    Base64RoundTrip(x);
    Base64RoundTrip(y);
    assert DepositMemo(a, digest)[|PREFIX|..] == Base64(x);
    assert DepositMemo(b, digest)[|PREFIX|..] == Base64(y);
  }

  // Other ids may share a memo.
  lemma DashesAreForgotten(digest: string -> seq<Byte>)
    requires |digest("a-b")| >= PAYLOAD_BYTES && |digest("ab")| >= PAYLOAD_BYTES
    ensures DepositMemo("a-b", digest) == DepositMemo("ab", digest) == "offab"
  {
    hide DropDashes;
    DropSegment("a", "b");
    assert "a" + "-" + "b" == "a-b";
    DropNone("b");
    DropNone("ab");
  }

  // A UUID as the program writes it: 8-4-4-4-12 lower-case hexadecimal digits.
  predicate Canonical(id: string) {
    && |id| == 36
    && (forall i :: 0 <= i < 36 ==>
          if i in {8, 13, 18, 23} then id[i] == '-' else IsHex(id[i]) && Lower(id[i]) == id[i])
  }

  lemma {:induction false} DropNone(s: string)
    requires forall i :: 0 <= i < |s| ==> s[i] != '-'
    ensures DropDashes(s) == s
  {
    if s != "" {
      DropNone(s[..|s| - 1]);
    }
  }

  lemma {:induction false} DropAppend(s: string, t: string)
    ensures DropDashes(s + t) == DropDashes(s) + DropDashes(t)
  {
    if t == "" {
      assert s + t == s;
    } else {
      assert (s + t)[..|s + t| - 1] == s + t[..|t| - 1];
      DropAppend(s, t[..|t| - 1]);
    }
  }

  lemma DropSegment(s: string, t: string)
    requires forall i :: 0 <= i < |s| ==> s[i] != '-'
    ensures DropDashes(s + "-" + t) == s + DropDashes(t)
  {
    hide DropDashes;
    DropNone(s);
    DropDash();
    DropAppend(s, "-");
    DropAppend(s + "-", t);
  }

  lemma DropDash()
    ensures DropDashes("-") == ""
  {
    assert "-"[..0] == "";
  }

  lemma CanonicalText(id: string)
    requires Canonical(id)
    ensures DropDashes(id) == id[..8] + id[9..13] + id[14..18] + id[19..23] + id[24..]
  {
    hide DropDashes;
    assert id == id[..8] + "-" + id[9..];
    assert id[9..] == id[9..13] + "-" + id[14..];
    assert id[14..] == id[14..18] + "-" + id[19..];
    assert id[19..] == id[19..23] + "-" + id[24..];
    DropSegment(id[..8], id[9..]);
    DropSegment(id[9..13], id[14..]);
    DropSegment(id[14..18], id[19..]);
    DropSegment(id[19..23], id[24..]);
    DropNone(id[24..]);
  }

  // No two orders with canonical UUIDs share a memo.
  lemma CanonicalMemosDiffer(a: string, b: string, digest: string -> seq<Byte>)
    requires Canonical(a) && Canonical(b)
    requires |digest(a)| >= PAYLOAD_BYTES && |digest(b)| >= PAYLOAD_BYTES
    ensures DepositMemo(a, digest) == DepositMemo(b, digest) <==> a == b
  {
    hide DropDashes, DepositMemo;
    CanonicalText(a);
    CanonicalText(b);
    CanonicalPacks(a);
    CanonicalPacks(b);
    MemoIdentifies(a, b, digest);
    if SameButCase(DropDashes(a), DropDashes(b)) {
      SameSegments(a, b);
    }
  }

  lemma CanonicalPacks(id: string)
    requires Canonical(id)
    ensures PacksToBytes(id) && forall i :: 0 <= i < 32 ==> Lower(DropDashes(id)[i]) == DropDashes(id)[i]
  {
    hide DropDashes;
    CanonicalText(id);
  }

  lemma SameSegments(a: string, b: string)
    requires Canonical(a) && Canonical(b) && SameButCase(DropDashes(a), DropDashes(b))
    ensures a == b
  {
    hide DropDashes, IsHex, Lower;
    CanonicalText(a);
    CanonicalText(b);
    CanonicalPacks(a);
    CanonicalPacks(b);
    var x, y := DropDashes(a), DropDashes(b);
    assert x == y;
    assert a[..8] == x[..8] && b[..8] == y[..8];
    assert a[9..13] == x[8..12] && b[9..13] == y[8..12];
    assert a[14..18] == x[12..16] && b[14..18] == y[12..16];
    assert a[19..23] == x[16..20] && b[19..23] == y[16..20];
    assert a[24..] == x[20..] && b[24..] == y[20..];
    assert a == a[..8] + "-" + a[9..13] + "-" + a[14..18] + "-" + a[19..23] + "-" + a[24..];
    assert b == b[..8] + "-" + b[9..13] + "-" + b[14..18] + "-" + b[19..23] + "-" + b[24..];
  }
}
