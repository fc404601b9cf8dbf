// The fingerprint of a create request (orderRequestHash): the operation and
// every field, each written after its length, and the digest of that text.
module Requests {
  import opened Prelude
  import opened Digits

  function Part(part: string): string {
    Decimal(|part|) + ":" + part
  }

  function Encode(parts: seq<string>): string {
    if parts == [] then "" else Encode(parts[..|parts| - 1]) + Part(parts[|parts| - 1])
  }

  method Write(operation: string, values: seq<string>) returns (text: string)
    ensures text == Encode([operation] + values)
  {
    var parts := [operation] + values;
    text := "";
    for i := 0 to |parts|
      invariant text == Encode(parts[..i])
    {
      assert parts[..i + 1][..i] == parts[..i];
      text := text + Decimal(|parts[i]|);
      text := text + ":";
      text := text + parts[i];
      assert text == Encode(parts[..i]) + Part(parts[i]);
    }
    assert parts[..|parts|] == parts;
  }

  // The text read from the front, a part at a time.
  lemma {:induction false} EncodeFront(parts: seq<string>)
    requires parts != []
    ensures Encode(parts) == Part(parts[0]) + Encode(parts[1..])
  {
    var init, last := parts[..|parts| - 1], parts[|parts| - 1];
    if |parts| == 1 {
      assert parts[1..] == [] && init == [];
    } else {
      EncodeFront(init);
      assert parts[1..][..|parts| - 2] == init[1..];
      assert Encode(parts[1..]) == Encode(init[1..]) + Part(last);
      assert init[0] == parts[0];
      Associate(Part(parts[0]), Encode(init[1..]), Part(last));
    }
  }

  lemma Associate(a: string, b: string, c: string)
    ensures (a + b) + c == a + (b + c)
  {
  }

  // Where the first colon is.
  function Colon(s: string): (i: nat)
    ensures i <= |s|
  {
    if s == "" || s[0] == ':' then 0 else 1 + Colon(s[1..])
  }

  lemma {:induction false} ColonAt(digits: string, rest: string)
    requires AllDigits(digits)
    ensures Colon(digits + ":" + rest) == |digits|
  {
    if digits != "" {
      ColonAt(digits[1..], rest);
      assert (digits + ":" + rest)[1..] == digits[1..] + ":" + rest;
    }
  }

  lemma Length(part: string, rest: string)
    ensures var s := Part(part) + rest;
            Colon(s) == |Decimal(|part|)| < |s| && s[..Colon(s)] == Decimal(|part|) && s[Colon(s) + 1..] == part + rest
  {
    assert Part(part) + rest == Decimal(|part|) + ":" + (part + rest);
    ColonAt(Decimal(|part|), part + rest);
  }

  // A length ends at its colon, so the length and with it the part can be
  // told from what follows.
  lemma PartIsDelimited(a: string, resta: string, b: string, restb: string)
    requires Part(a) + resta == Part(b) + restb
    ensures a == b && resta == restb
  {
    hide Part, Decimal, Colon;
    Length(a, resta);
    Length(b, restb);
    DecimalValue(|a|);
    DecimalValue(|b|);
    assert a == (a + resta)[..|a|] && b == (b + restb)[..|b|];
    assert resta == (a + resta)[|a|..] && restb == (b + restb)[|b|..];
  }

  // Two field lists with the same text are the same list, whatever characters
  // their fields hold.
  lemma {:induction false} EncodeInjective(a: seq<string>, b: seq<string>)
    requires Encode(a) == Encode(b)
    ensures a == b
    decreases |a|
  {
    if a == [] || b == [] {
      NotEmpty(a);
      NotEmpty(b);
    } else {
      EncodeFront(a);
      EncodeFront(b);
      PartIsDelimited(a[0], Encode(a[1..]), b[0], Encode(b[1..]));
      EncodeInjective(a[1..], b[1..]);
      assert a == [a[0]] + a[1..] && b == [b[0]] + b[1..];
    }
  }

  lemma NotEmpty(parts: seq<string>)
    ensures parts == [] <==> Encode(parts) == ""
  {
  }

  // The digest is any function that no two texts share a value of.
  ghost predicate CollisionFree(digest: string -> string) {
    forall a, b :: digest(a) == digest(b) ==> a == b
  }

  function OrderRequestHash(digest: string -> string, operation: string, values: seq<string>): string {
    digest(Encode([operation] + values))
  }

  // Requests have one fingerprint exactly when they ask for the same thing.
  lemma SameHashSameRequest(digest: string -> string, op1: string, values1: seq<string>, op2: string, values2: seq<string>)
    requires CollisionFree(digest)
    ensures OrderRequestHash(digest, op1, values1) == OrderRequestHash(digest, op2, values2)
            <==> op1 == op2 && values1 == values2
  {
    var a, b := [op1] + values1, [op2] + values2;
    if digest(Encode(a)) == digest(Encode(b)) {
      assert Encode(a) == Encode(b);
      EncodeInjective(a, b);
      assert op1 == a[0] && op2 == b[0] && values1 == a[1..] && values2 == b[1..];
    }
  }
}
