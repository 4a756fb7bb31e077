/** Signing and verifying bearer strings. */
module ConnectionToken {
  import opened Prelude
  import opened Base64Url
  import opened Strings

  // The provider bearer strings: signing and verifying. JSON text and the keyed hash are parameters of the codec; all that is
  // asked of them is that a written payload reads back and that a hash has 32 bytes.

  /** Text as the runtime counts it, in 16-bit units. */
  type Unit = x: int | 0 <= x < 0x10000
  type Text = seq<Unit>

  datatype Scope = SourceProvision | Measure | ViewCreate | Generate | AttemptCancel | Forget | OperationRead

  datatype Payload = Payload(v: int, epoch: Text, connection: Text, allocation: Text, provider: Text, capability: Text,
                             audience: Text, generation: int, providerRevision: Option<Text>, instanceId: Option<Text>,
                             instanceGeneration: Option<int>, iat: int, exp: int, subject: Option<Text>,
                             scopes: Option<seq<Scope>>)

  predicate Sized(t: Text, most: nat) { 1 <= |t| <= most }

  /** 64 lower-case hexadecimal digits. */
  predicate Digest(t: Text) {
    |t| == 64 && forall i :: 0 <= i < 64 ==> 97 <= t[i] <= 102 || 48 <= t[i] <= 57
  }

  predicate Valid(p: Payload) {
    && p.v == 1
    && Sized(p.epoch, 128) && Sized(p.connection, 192) && Sized(p.allocation, 192)
    && Sized(p.provider, 128) && Sized(p.capability, 128) && Sized(p.audience, 128)
    && p.generation > 0 && p.iat >= 0 && p.exp > 0
    && (p.providerRevision.Some? ==> Digest(p.providerRevision.value))
    && (p.instanceId.Some? ==> Sized(p.instanceId.value, 192))
    && (p.instanceGeneration.Some? ==> p.instanceGeneration.value > 0)
    && (p.subject.Some? ==> Digest(p.subject.value))
    && (p.scopes.Some? ==> |p.scopes.value| <= 7)
    && p.instanceId.Some? == p.instanceGeneration.Some?
    && (p.instanceId.Some? ==> p.providerRevision.Some?)
  }

  /** `read` gives nothing for what is not JSON or has not the shape of a payload. */
  datatype Codec = Codec(write: Payload -> seq<Byte>, read: seq<Byte> -> Option<Payload>, mac: string -> seq<Byte>)

  ghost predicate Sound(c: Codec) {
    && (forall p :: c.read(c.write(p)) == Some(p) && c.write(p) != [])
    && (forall s :: |c.mac(s)| == 32)
  }

  datatype Error = InvalidToken | ExpiredToken
  datatype Result = Ok(payload: Payload) | Err(error: Error)

  const Version := "larm_conn_v1"

  function Signed(c: Codec, p: Payload): string {
    Version + "." + Encode(c.write(p))
  }

  function Sign(c: Codec, p: Payload): Option<string> {
    if !Valid(p) then None else Some(Signed(c, p) + "." + Encode(c.mac(Signed(c, p))))
  }

  function Verify(c: Codec, token: string, nowMs: int): Result {
    var parts := Split(token, '.');
    if |parts| != 3 || parts[0] != Version then Err(InvalidToken)
    else if parts[1] == "" || !AllLetters(parts[1]) || |parts[2]| != 43 || !AllLetters(parts[2]) then Err(InvalidToken)
    else
      var expected, actual := c.mac(parts[0] + "." + parts[1]), Decode(parts[2]);
      if Encode(actual) != parts[2] then Err(InvalidToken)
      else if |actual| != |expected| || actual != expected then Err(InvalidToken)
      else
        var candidate := c.read(Decode(parts[1]));
        if candidate == None || !Valid(candidate.value) then Err(InvalidToken)
        else if Encode(c.write(candidate.value)) != parts[1] then Err(InvalidToken)
        else if candidate.value.iat > nowMs / 1000 then Err(InvalidToken)
        else if candidate.value.exp <= nowMs / 1000 then Err(ExpiredToken)
        else Ok(candidate.value)
  }

  // ----- splitting -----

  lemma SplitToken(a: string, b: string, d: string)
    requires Without(a, '.') && Without(b, '.') && Without(d, '.')
    ensures Split(a + "." + b + "." + d, '.') == [a, b, d]
  {
    assert a + "." + b + "." + d == a + "." + (b + "." + d);
    SplitFirst(a, b + "." + d, '.');
    SplitFirst(b, d, '.');
    SplitOne(d, '.');
  }

  lemma JoinToken(token: string)
    requires |Split(token, '.')| == 3
    ensures var parts := Split(token, '.'); token == parts[0] + "." + parts[1] + "." + parts[2]
  {
    JoinSplit(token, '.');
    var parts := Split(token, '.');
    assert parts[1..] == [parts[1], parts[2]] && parts[1..][1..] == [parts[2]];
    assert Join(parts[1..], '.') == parts[1] + "." + parts[2];
    assert token == parts[0] + "." + (parts[1] + "." + parts[2]);
  }

  // ----- the main results -----

  lemma SignedParts(c: Codec, p: Payload)
    requires Sound(c) && Valid(p)
    ensures Split(Sign(c, p).value, '.') == [Version, Encode(c.write(p)), Encode(c.mac(Signed(c, p)))]
    ensures Encode(c.write(p)) != "" && |Encode(c.mac(Signed(c, p)))| == 43
  {
    SplitToken(Version, Encode(c.write(p)), Encode(c.mac(Signed(c, p))));
    SignatureLetters(c.mac(Signed(c, p)));
    DecodeEncode(c.write(p));
  }

  /** What signing produces is accepted and read back, exactly while it is valid. */
  lemma SignedIsRead(c: Codec, p: Payload, nowMs: int)
    requires Sound(c) && Valid(p)
    ensures Verify(c, Sign(c, p).value, nowMs)
            == if p.iat > nowMs / 1000 then Err(InvalidToken)
               else if p.exp <= nowMs / 1000 then Err(ExpiredToken)
               else Ok(p)
  {
    SignedParts(c, p);
    DecodeEncode(c.write(p));
    DecodeEncode(c.mac(Signed(c, p)));
  }

  /** Whatever is not refused as invalid is the one string that signing produces for some payload. */
  lemma OnlySignedIsRead(c: Codec, token: string, nowMs: int) returns (p: Payload)
    requires Sound(c) && Verify(c, token, nowMs) != Err(InvalidToken)
    ensures Sign(c, p) == Some(token) && p.iat <= nowMs / 1000
    ensures Verify(c, token, nowMs) == if p.exp <= nowMs / 1000 then Err(ExpiredToken) else Ok(p)
  {
    var parts := Split(token, '.');
    JoinToken(token);
    p := c.read(Decode(parts[1])).value;
    assert Signed(c, p) == Version + "." + parts[1];
  }

  /** So accepted strings and payloads in their time window are in bijection. */
  lemma AcceptedExactlyWhenSigned(c: Codec, token: string, nowMs: int, p: Payload)
    requires Sound(c)
    ensures Verify(c, token, nowMs) == Ok(p) <==> Sign(c, p) == Some(token) && p.iat <= nowMs / 1000 < p.exp
  {
    if Verify(c, token, nowMs) == Ok(p) {
      var q := OnlySignedIsRead(c, token, nowMs);
    }
    if Sign(c, p) == Some(token) { SignedIsRead(c, p, nowMs); }
  }

  lemma SignInjective(c: Codec, p: Payload, q: Payload)
    requires Sound(c) && Valid(p) && Sign(c, p) == Sign(c, q)
    ensures p == q
  {
    SignedParts(c, p);
    SignedParts(c, q);
    EncodeInjective(c.write(p), c.write(q));
  }

  /** A string expires at one moment and stays expired. */
  lemma ExpiredForGood(c: Codec, token: string, nowMs: int, laterMs: int)
    requires Sound(c) && nowMs <= laterMs && Verify(c, token, nowMs) == Err(ExpiredToken)
    ensures Verify(c, token, laterMs) == Err(ExpiredToken)
  {
    var p := OnlySignedIsRead(c, token, nowMs);
    SignedIsRead(c, p, laterMs);
  }
}
