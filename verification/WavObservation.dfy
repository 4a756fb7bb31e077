/** The WAV header observer. */
module WavObservation {
  import opened Prelude

  // The WAV header observer. It sees a byte stream in chunks, keeps at most 64 KiB of it, and must not depend on how the stream
  // was cut. RIFF/WAVE chunks: four letters, a little-endian size, the content, and a pad byte after an odd size.

  const MOST: nat := 65536

  /** The four letters at an offset. */
  function Tag(b: seq<Byte>, at: nat): seq<Byte>
    requires at + 4 <= |b|
  {
    b[at..at + 4]
  }

  const RIFF: seq<Byte> := [0x52, 0x49, 0x46, 0x46]
  const WAVE: seq<Byte> := [0x57, 0x41, 0x56, 0x45]
  const FMT: seq<Byte> := [0x66, 0x6d, 0x74, 0x20]
  const DATA: seq<Byte> := [0x64, 0x61, 0x74, 0x61]

  /** `getUint32` in little-endian order. */
  function Word(b: seq<Byte>, at: nat): nat
    requires at + 4 <= |b|
  {
    b[at] as int + b[at + 1] as int * 0x100 + b[at + 2] as int * 0x1_0000 + b[at + 3] as int * 0x100_0000
  }

  /** The byte rate of the last format chunk seen, and where the data begins and how long it is said to be. */
  datatype Found = Found(rate: Option<nat>, data: Option<(nat, nat)>)

  predicate IsWave(b: seq<Byte>)
    requires |b| >= 12
  {
    Tag(b, 0) == RIFF && Tag(b, 8) == WAVE
  }

  function RateAt(b: seq<Byte>, at: nat, rate: Option<nat>): Option<nat>
    requires at + 8 <= |b|
  {
    if Tag(b, at) == FMT && Word(b, at + 4) >= 16 && at + 24 <= |b| then Some(Word(b, at + 16)) else rate
  }

  function NextChunk(b: seq<Byte>, at: nat): (r: nat)
    requires at + 8 <= |b|
    ensures r >= at + 8
  {
    at + 8 + Word(b, at + 4) + Word(b, at + 4) % 2
  }

  /** The chunks from an offset on, up to the first data chunk or the end of what is there. */
  function Scan(b: seq<Byte>, at: nat, rate: Option<nat>): Found
    decreases |b| - at
  {
    if at + 8 > |b| then Found(rate, None)
    else if Tag(b, at) == DATA then Found(RateAt(b, at, rate), Some((at + 8, Word(b, at + 4))))
    else Scan(b, NextChunk(b, at), RateAt(b, at, rate))
  }

  function Head(b: seq<Byte>): seq<Byte> { if |b| <= MOST then b else b[..MOST] }

  /** What the whole stream says, looked at once. */
  function Observed(all: seq<Byte>): Found {
    if |all| < 12 || !IsWave(all) then Found(None, None) else Scan(Head(all), 12, None)
  }

  predicate Started(all: seq<Byte>) {
    Observed(all).data.Some? && |all| > Observed(all).data.value.0
  }

  /** The duration, once the whole of the data has been received. */
  function Duration(all: seq<Byte>): Option<real> {
    var f := Observed(all);
    if f.rate == None || f.rate.value == 0 || f.data == None || f.data.value.1 == 0
       || |all| < f.data.value.0 + f.data.value.1 || f.data.value.1 == 0xffff_ffff then None
    else Some(f.data.value.1 as real / f.rate.value as real)
  }

  // ----- looking at more of the stream -----

  lemma SameBytes(b: seq<Byte>, more: seq<Byte>, at: nat)
    requires b <= more && at + 8 <= |b|
    ensures Tag(more, at) == Tag(b, at) && Word(more, at + 4) == Word(b, at + 4)
        && NextChunk(more, at) == NextChunk(b, at)
    ensures at + 24 <= |b| ==> Word(more, at + 16) == Word(b, at + 16)
  {
  }

  /** Looking at more finds a format chunk again that was found before. */
  lemma {:induction false} RateKept(b: seq<Byte>, more: seq<Byte>, at: nat, rate: Option<nat>, rate': Option<nat>)
    requires b <= more && (rate.Some? ==> rate'.Some?)
    ensures Scan(b, at, rate).rate.Some? ==> Scan(more, at, rate').rate.Some?
    decreases |b| - at
  {
    if at + 8 <= |b| {
      SameBytes(b, more, at);
      if Tag(b, at) != DATA {
        RateKept(b, more, NextChunk(b, at), RateAt(b, at, rate), RateAt(more, at, rate'));
      }
    } else if rate.Some? {
      RateStays(more, at, rate');
    }
  }

  lemma {:induction false} RateStays(b: seq<Byte>, at: nat, rate: Option<nat>)
    requires rate.Some?
    ensures Scan(b, at, rate).rate.Some?
    decreases |b| - at
  {
    if at + 8 <= |b| && Tag(b, at) != DATA { RateStays(b, NextChunk(b, at), RateAt(b, at, rate)); }
  }

  /** Once the data chunk is found, looking at more changes nothing. */
  lemma {:induction false} FoundForGood(b: seq<Byte>, more: seq<Byte>, at: nat, rate: Option<nat>)
    requires b <= more && Scan(b, at, rate).data.Some?
    ensures Scan(more, at, rate) == Scan(b, at, rate)
    decreases |b| - at
  {
    SameBytes(b, more, at);
    if Tag(b, at) == DATA {
      assert RateAt(b, at, rate) == rate == RateAt(more, at, rate);
    } else {
      FoundEnd(b, NextChunk(b, at), RateAt(b, at, rate));
      assert RateAt(more, at, rate) == RateAt(b, at, rate);
      FoundForGood(b, more, NextChunk(b, at), RateAt(b, at, rate));
    }
  }

  /** A format chunk that is followed by the data chunk was looked at whole. */
  lemma FoundEnd(b: seq<Byte>, at: nat, rate: Option<nat>)
    requires Scan(b, at, rate).data.Some?
    ensures at + 8 <= |b|
  {
  }

  /** What is settled: not a wave file, the data chunk found, or all the bytes looked at that ever will be. */
  predicate Settled(all: seq<Byte>) {
    |all| >= 12 && (!IsWave(all) || |all| >= MOST || Observed(all).data.Some?)
  }

  lemma SettledForGood(all: seq<Byte>, more: seq<Byte>)
    requires Settled(all)
    ensures Settled(all + more) && Observed(all + more) == Observed(all)
  {
    var b := all + more;
    assert IsWave(b) == IsWave(all) by {
      assert Tag(b, 0) == Tag(all, 0) && Tag(b, 8) == Tag(all, 8);
    }
    if IsWave(all) {
      if |all| >= MOST {
        assert Head(b) == Head(all);
      } else {
        assert Head(all) <= Head(b);
        FoundForGood(Head(all), Head(b), 12, None);
      }
    }
  }

  // ----- the observer -----

  class Observer {
    var prefix: seq<Byte>
    var received: nat
    var data: Option<(nat, nat)>
    var rate: Option<nat>
    var stopped: bool
    /** Everything received. */
    ghost var all: seq<Byte>

    /**
     Between calls less than 64 KiB are kept, and all that is known is what one look at the whole stream would say.
     */
    ghost predicate Valid()
      reads this
    {
      && received == |all|
      && rate == Observed(all).rate && data == Observed(all).data
      && (stopped <==> Settled(all))
      && prefix == (if stopped then [] else all)
      && |prefix| < MOST
    }

    constructor ()
      ensures Valid() && all == []
    {
      prefix, received, data, rate, stopped, all := [], 0, None, None, false, [];
    }

    method Push(bytes: seq<Byte>) returns (started: bool)
      requires Valid()
      modifies this
      ensures Valid() && all == old(all) + bytes && started == Started(all)
    {
      received := received + |bytes|;
      all := all + bytes;
      if !stopped {
        var length := if MOST < |prefix| + |bytes| then MOST else |prefix| + |bytes|;
        ghost var before := prefix;
        prefix := prefix + bytes[..length - |prefix|];
        assert prefix == Head(all);
        RateSurvives(before, all);
        Inspect();
        if |prefix| == MOST || data.Some? {
          stopped := true;
          prefix := [];
        }
      } else {
        SettledForGood(old(all), bytes);
      }
      started := data.Some? && received > data.value.0;
    }

    lemma RateSurvives(before: seq<Byte>, after: seq<Byte>)
      requires before <= after && !Settled(before) && |before| < MOST
      ensures Observed(before).rate.Some? ==> Observed(after).rate.Some?
    {
      if |before| >= 12 {
        assert Tag(before, 0) == Tag(after, 0) && Tag(before, 8) == Tag(after, 8);
        assert before <= Head(after);
        RateKept(before, Head(after), 12, None, None);
      }
    }

    /** Scans the prefix from the start again. */
    method Inspect()
      requires prefix == Head(all) && !stopped && data == None
      requires rate.Some? ==> Observed(all).rate.Some?
      modifies this
      ensures all == old(all) && received == old(received)
      ensures rate == Observed(all).rate && data == Observed(all).data
      ensures if |all| >= 12 && !IsWave(all) then stopped && prefix == [] else !stopped && prefix == Head(all)
    {
      if |prefix| < 12 { return; }
      assert Tag(prefix, 0) == Tag(all, 0) && Tag(prefix, 8) == Tag(all, 8);
      if Tag(prefix, 0) != RIFF || Tag(prefix, 8) != WAVE {
        stopped := true;
        prefix := [];
        return;
      }
      ghost var rate0: Option<nat> := None;
      var offset := 12;
      while offset + 8 <= |prefix|
        invariant all == old(all) && received == old(received) && prefix == Head(all) && !stopped && data == None
        invariant Scan(prefix, offset, rate0) == Observed(all)
        invariant if rate0.Some? then rate == rate0 else rate == old(rate)
        decreases |prefix| - offset
      {
        var size := Word(prefix, offset + 4);
        if Tag(prefix, offset) == FMT && size >= 16 && offset + 24 <= |prefix| {
          rate := Some(Word(prefix, offset + 16));
        }
        rate0 := RateAt(prefix, offset, rate0);
        if Tag(prefix, offset) == DATA {
          data := Some((offset + 8, size));
          return;
        }
        offset := NextChunk(prefix, offset);
      }
    }

    method DurationSeconds() returns (seconds: Option<real>)
      requires Valid()
      ensures seconds == Duration(all)
    {
      if rate == None || rate.value == 0 || data == None || data.value.1 == 0
         || received < data.value.0 + data.value.1 || data.value.1 == 0xffff_ffff { return None; }
      return Some(data.value.1 as real / rate.value as real);
    }
  }

  function Joined(chunks: seq<seq<Byte>>): seq<Byte> {
    if chunks == [] then [] else Joined(chunks[..|chunks| - 1]) + chunks[|chunks| - 1]
  }

  /** However a stream is cut, the last answer and the duration are those of the whole stream in one piece. */
  method Observe(chunks: seq<seq<Byte>>) returns (last: bool, seconds: Option<real>)
    ensures last <==> chunks != [] && Started(Joined(chunks))
    ensures seconds == Duration(Joined(chunks))
  {
    var observer := new Observer();
    last := false;
    for i := 0 to |chunks|
      invariant observer.Valid() && fresh(observer) && observer.all == Joined(chunks[..i])
      invariant last <==> i > 0 && Started(observer.all)
    {
      assert chunks[..i + 1][..i] == chunks[..i];
      last := observer.Push(chunks[i]);
    }
    assert chunks[..|chunks|] == chunks;
    seconds := observer.DurationSeconds();
  }
}
