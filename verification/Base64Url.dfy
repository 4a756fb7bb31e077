/** The base64url layer of bearer strings. */
module Base64Url {
  import opened Prelude

  // The base64url layer of bearer strings (section 5 of RFC 4648, without padding). Decoding is lenient about the unused low
  // bits of the last character, as the runtime's decoder is, so canonical strings are a proper subset.

  type Sextet = x: int | 0 <= x < 64

  // ----- letters -----

  predicate IsLetter(c: char) {
    'A' <= c <= 'Z' || 'a' <= c <= 'z' || '0' <= c <= '9' || c == '-' || c == '_'
  }

  function Letter(v: Sextet): (c: char)
    ensures IsLetter(c) && Value(c) == v
  {
    if v < 26 then ('A' as int + v) as char
    else if v < 52 then ('a' as int + (v - 26)) as char
    else if v < 62 then ('0' as int + (v - 52)) as char
    else if v == 62 then '-'
    else '_'
  }

  function Value(c: char): Sextet {
    if 'A' <= c <= 'Z' then c as int - 'A' as int
    else if 'a' <= c <= 'z' then c as int - 'a' as int + 26
    else if '0' <= c <= '9' then c as int - '0' as int + 52
    else if c == '-' then 62
    else 63
  }

  predicate AllLetters(s: string) { forall i :: 0 <= i < |s| ==> IsLetter(s[i]) }

  function Letters(v: seq<Sextet>): (s: string)
    ensures AllLetters(s) && Values(s) == v
  {
    seq(|v|, i requires 0 <= i < |v| => Letter(v[i]))
  }

  function Values(s: string): (v: seq<Sextet>)
    ensures |v| == |s| && forall i :: 0 <= i < |s| ==> v[i] == Value(s[i])
  {
    seq(|s|, i requires 0 <= i < |s| => Value(s[i]))
  }

  lemma LettersOfValues(s: string)
    requires AllLetters(s)
    ensures Letters(Values(s)) == s
  {
    forall i | 0 <= i < |s| ensures Letters(Values(s))[i] == s[i] {
      assert IsLetter(s[i]);
    }
  }

  // ----- groups of bits -----

  /** Three bytes are four sextets; one byte is two of them and two bytes are three, the missing bits being zero. */
  function Sextets(b: seq<Byte>): (v: seq<Sextet>)
    ensures |v| == |b| / 3 * 4 + (if |b| % 3 == 0 then 0 else |b| % 3 + 1)
  {
    if b == [] then []
    else if |b| == 1 then [b[0] / 4, b[0] % 4 * 16]
    else if |b| == 2 then [b[0] / 4, b[0] % 4 * 16 + b[1] / 16, b[1] % 16 * 4]
    else [b[0] / 4, b[0] % 4 * 16 + b[1] / 16, b[1] % 16 * 4 + b[2] / 64, b[2] % 64] + Sextets(b[3..])
  }

  function First(v0: Sextet, v1: Sextet): Byte { v0 * 4 + v1 / 16 }
  function Second(v1: Sextet, v2: Sextet): Byte { v1 % 16 * 16 + v2 / 4 }
  function Third(v2: Sextet, v3: Sextet): Byte { v2 % 4 * 64 + v3 }

  /** A single sextet left over carries no byte. */
  function Bytes(v: seq<Sextet>): (b: seq<Byte>)
    ensures |b| == |v| * 3 / 4
  {
    if |v| <= 1 then []
    else if |v| == 2 then [First(v[0], v[1])]
    else if |v| == 3 then [First(v[0], v[1]), Second(v[1], v[2])]
    else [First(v[0], v[1]), Second(v[1], v[2]), Third(v[2], v[3])] + Bytes(v[4..])
  }

  lemma {:induction false} ThreeBytes(b0: Byte, b1: Byte, b2: Byte, rest: seq<Sextet>)
    ensures Bytes([b0 / 4, b0 % 4 * 16 + b1 / 16, b1 % 16 * 4 + b2 / 64, b2 % 64] + rest) == [b0, b1, b2] + Bytes(rest)
  {
    var v := [b0 / 4, b0 % 4 * 16 + b1 / 16, b1 % 16 * 4 + b2 / 64, b2 % 64] + rest;
    assert v[4..] == rest;
    assert First(v[0], v[1]) == b0 && Second(v[1], v[2]) == b1 && Third(v[2], v[3]) == b2;
  }

  lemma {:induction false} BytesOfSextets(b: seq<Byte>)
    ensures Bytes(Sextets(b)) == b
  {
    if |b| >= 3 {
      hide Bytes;
      BytesOfSextets(b[3..]);
      ThreeBytes(b[0], b[1], b[2], Sextets(b[3..]));
      assert b == [b[0], b[1], b[2]] + b[3..];
    }
  }

  predicate NothingLost(v: seq<Sextet>) {
    match |v| % 4
    case 0 => true
    case 1 => false
    case 2 => v[|v| - 1] % 16 == 0
    case _ => v[|v| - 1] % 4 == 0
  }

  lemma {:induction false} GroupKept(v0: Sextet, v1: Sextet, v2: Sextet, v3: Sextet, rest: seq<Byte>)
    ensures Sextets([First(v0, v1), Second(v1, v2), Third(v2, v3)] + rest) == [v0, v1, v2, v3] + Sextets(rest)
  {
    var b := [First(v0, v1), Second(v1, v2), Third(v2, v3)] + rest;
    assert b[3..] == rest;
    assert b[0] / 4 == v0 && b[0] % 4 * 16 + b[1] / 16 == v1 && b[1] % 16 * 4 + b[2] / 64 == v2 && b[2] % 64 == v3;
  }

  lemma {:induction false} TwoKept(v0: Sextet, v1: Sextet)
    ensures Sextets([First(v0, v1)]) == [v0, v1] <==> v1 % 16 == 0
  {
    assert Sextets([First(v0, v1)]) == [v0, v1 / 16 * 16];
    assert v1 / 16 * 16 == v1 <==> v1 % 16 == 0;
    assert [v0, v1 / 16 * 16][1] == v1 / 16 * 16;
  }

  lemma {:induction false} ThreeKept(v0: Sextet, v1: Sextet, v2: Sextet)
    ensures Sextets([First(v0, v1), Second(v1, v2)]) == [v0, v1, v2] <==> v2 % 4 == 0
  {
    var b := [First(v0, v1), Second(v1, v2)];
    assert b[0] / 4 == v0 && b[0] % 4 * 16 + b[1] / 16 == v1 && b[1] % 16 * 4 == v2 / 4 * 4;
    assert Sextets(b) == [v0, v1, v2 / 4 * 4];
    assert v2 / 4 * 4 == v2 <==> v2 % 4 == 0;
    assert [v0, v1, v2 / 4 * 4][2] == v2 / 4 * 4;
  }

  lemma ThreeOfBytes(v: seq<Sextet>)
    requires |v| == 3
    ensures Bytes(v) == [First(v[0], v[1]), Second(v[1], v[2])] && v == [v[0], v[1], v[2]]
    ensures NothingLost(v) <==> v[2] % 4 == 0
  {
  }

  lemma TwoOfBytes(v: seq<Sextet>)
    requires |v| == 2
    ensures Bytes(v) == [First(v[0], v[1])] && v == [v[0], v[1]]
    ensures NothingLost(v) <==> v[1] % 16 == 0
  {
  }

  lemma FewOfBytes(v: seq<Sextet>)
    requires |v| < 2
    ensures Sextets(Bytes(v)) == v <==> NothingLost(v)
  {
    assert Bytes(v) == [] && Sextets([]) == [];
  }

  lemma {:induction false} ShortSextetsOfBytes(v: seq<Sextet>)
    requires |v| < 4
    ensures Sextets(Bytes(v)) == v <==> NothingLost(v)
  {
    hide *;
    if |v| == 3 {
      ThreeOfBytes(v);
      ThreeKept(v[0], v[1], v[2]);
    } else if |v| == 2 {
      TwoOfBytes(v);
      TwoKept(v[0], v[1]);
    } else {
      FewOfBytes(v);
    }
  }

  lemma SameTail(head: seq<Sextet>, a: seq<Sextet>, b: seq<Sextet>)
    ensures head + a == head + b <==> a == b
  {
    assert (head + a)[|head|..] == a && (head + b)[|head|..] == b;
  }

  lemma FourOfBytes(v: seq<Sextet>)
    requires |v| >= 4
    ensures Bytes(v) == [First(v[0], v[1]), Second(v[1], v[2]), Third(v[2], v[3])] + Bytes(v[4..])
  {
    hide First, Second, Third;
  }

  lemma FourAndRest(v: seq<Sextet>)
    requires |v| >= 4
    ensures v == [v[0], v[1], v[2], v[3]] + v[4..]
  {
  }

  lemma LostInRest(v: seq<Sextet>)
    requires |v| >= 4
    ensures NothingLost(v) <==> NothingLost(v[4..])
  {
    var rest := v[4..];
    assert |v| % 4 == |rest| % 4;
    if |rest| > 0 { assert rest[|rest| - 1] == v[|v| - 1]; }
  }

  lemma {:induction false} SextetsOfBytes(v: seq<Sextet>)
    ensures Sextets(Bytes(v)) == v <==> NothingLost(v)
    decreases |v|
  {
    hide *;
    if |v| < 4 {
      ShortSextetsOfBytes(v);
    } else {
      SextetsOfBytes(v[4..]);
      FourOfBytes(v);
      FourAndRest(v);
      LostInRest(v);
      GroupKept(v[0], v[1], v[2], v[3], Bytes(v[4..]));
      SameTail([v[0], v[1], v[2], v[3]], Sextets(Bytes(v[4..])), v[4..]);
    }
  }

  // ----- strings -----

  function Encode(b: seq<Byte>): (s: string)
    ensures AllLetters(s)
  {
    Letters(Sextets(b))
  }

  function Decode(s: string): seq<Byte> { Bytes(Values(s)) }

  /** No letter is left over, and the bits that carry nothing are zero. */
  predicate Canonical(s: string) { NothingLost(Values(s)) }

  lemma {:induction false} DecodeEncode(b: seq<Byte>)
    ensures Decode(Encode(b)) == b
  {
    BytesOfSextets(b);
  }

  /** Which strings of letters are the encoding of what they decode to: exactly the canonical ones. */
  lemma {:induction false} EncodeDecode(s: string)
    requires AllLetters(s)
    ensures Encode(Decode(s)) == s <==> Canonical(s)
  {
    SextetsOfBytes(Values(s));
    LettersOfValues(s);
  }

  /** A 32-byte signature has 43 letters, the last of them with two bits that carry nothing and must be zero. */
  lemma {:induction false} SignatureLetters(b: seq<Byte>)
    requires |b| == 32
    ensures |Encode(b)| == 43 && Value(Encode(b)[42]) % 4 == 0
  {
    DecodeEncode(b);
    EncodeDecode(Encode(b));
    assert |Values(Encode(b))| == |Sextets(b)| == 43;
  }

  lemma {:induction false} EncodeInjective(a: seq<Byte>, b: seq<Byte>)
    requires Encode(a) == Encode(b)
    ensures a == b
  {
    DecodeEncode(a);
    DecodeEncode(b);
  }
}
