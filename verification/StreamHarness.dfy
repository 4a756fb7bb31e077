/** The streaming speech simulator, as the object it is in the source. */
module StreamHarness {
  import opened Prelude
  import opened SpeechSegments

  // The streaming speech simulator: text is released, judged in flights, adopted as segments, synthesized and played. The class
  // keeps the source's fields; `released`, `adopted` and `played` are history. A flight's number stands for the identity of the
  // job object. Event records are left out.

  datatype Limits = Limits(pendingCodePoints: nat, audioSegments: nat, audioMs: real, holdMs: real, timeoutMs: real,
                           stallMs: real)

  datatype Flight = Flight(id: nat, snapshot: Snapshot, deadline: real)

  datatype Audio = Audio(segment: Segment, ready: bool, duration: Option<real>)

  datatype Phase = Active | Completed | Unresolved | Failed | Cancelled

  // ----- what is kept -----

  function LastOf(t: Text, n: nat): Text { if |t| <= n then t else t[|t| - n..] }

  /** Released text is consumed text and then pending text; the context is the end of the consumed text. */
  predicate TextKept(released: Text, committed: nat, pending: Text, context: Text) {
    committed <= |released| && released[committed..] == pending && context == LastOf(released[..committed], 256)
  }

  /** The adopted segments tile the consumed text, and what has been played is the first of them. */
  predicate SpeechKept(released: Text, committed: nat, adopted: seq<Segment>, played: seq<Segment>) {
    Tiles(adopted, released, 0, committed) && played <= adopted
  }

  function SegmentsOf(queue: seq<Audio>): (s: seq<Segment>)
    ensures |s| == |queue| && forall i :: 0 <= i < |queue| ==> s[i] == queue[i].segment
  {
    seq(|queue|, i requires 0 <= i < |queue| => queue[i].segment)
  }

  function Milliseconds(a: Audio): real { if a.duration.Some? then a.duration.value else 0.0 }

  /** `queue.reduce((sum, a) => sum + (a.durationMs ?? 0), 0)` */
  function Total(queue: seq<Audio>): real {
    if queue == [] then 0.0 else Milliseconds(queue[0]) + Total(queue[1..])
  }

  function Buffered(queue: seq<Audio>, playing: Option<Audio>): real {
    Total(queue) + if playing.Some? then Milliseconds(playing.value) else 0.0
  }

  predicate GoodAudio(a: Audio) { a.ready == a.duration.Some? && (a.duration.Some? ==> a.duration.value > 0.0) }

  predicate WithinLimits(queue: seq<Audio>, playing: Option<Audio>, limits: Limits) {
    && |queue| + (if playing.Some? then 1 else 0) <= limits.audioSegments
    && Buffered(queue, playing) <= limits.audioMs
    && (forall i :: 0 <= i < |queue| ==> GoodAudio(queue[i]))
    && (playing.Some? ==> GoodAudio(playing.value))
  }

  /** While the stream is active nothing adopted is lost: it has been played, is playing, or is in the queue. */
  predicate NothingLost(adopted: seq<Segment>, played: seq<Segment>, queue: seq<Audio>, playing: Option<Audio>) {
    adopted == played + SegmentsOf(queue) && (playing.Some? ==> played != [] && played[|played| - 1] == playing.value.segment)
  }

  lemma {:induction false} TotalJoin(a: seq<Audio>, b: seq<Audio>)
    ensures Total(a + b) == Total(a) + Total(b)
  {
    if a == [] {
      assert a + b == b;
    } else {
      assert (a + b)[1..] == a[1..] + b;
      TotalJoin(a[1..], b);
    }
  }

  lemma {:induction false} NoneReady(queue: seq<Audio>)
    requires forall i :: 0 <= i < |queue| ==> queue[i].duration == None
    ensures Total(queue) == 0.0
  {
    if queue != [] { NoneReady(queue[1..]); }
  }

  lemma TotalSet(queue: seq<Audio>, i: nat, a: Audio)
    requires i < |queue|
    ensures Total(queue[i := a]) == Total(queue) - Milliseconds(queue[i]) + Milliseconds(a)
  {
    TotalJoin(queue[..i], queue[i..]);
    TotalJoin(queue[..i], queue[i := a][i..]);
    assert queue == queue[..i] + queue[i..] && queue[i := a] == queue[..i] + queue[i := a][i..];
    assert queue[i..][1..] == queue[i := a][i..][1..];
  }

  /** New segments in the queue, none of them synthesized yet. */
  function Fresh(segments: seq<Segment>): (q: seq<Audio>)
    ensures |q| == |segments| && forall i :: 0 <= i < |q| ==> q[i] == Audio(segments[i], false, None)
  {
    seq(|segments|, i requires 0 <= i < |segments| => Audio(segments[i], false, None))
  }

  lemma QueueTakesIn(queue: seq<Audio>, playing: Option<Audio>, limits: Limits, segments: seq<Segment>)
    requires WithinLimits(queue, playing, limits)
    requires |segments| + |queue| + (if playing.Some? then 1 else 0) <= limits.audioSegments
    ensures WithinLimits(queue + Fresh(segments), playing, limits)
    ensures SegmentsOf(queue + Fresh(segments)) == SegmentsOf(queue) + segments
  {
    NoneReady(Fresh(segments));
    TotalJoin(queue, Fresh(segments));
  }

  lemma {:induction false} NothingLostMore(adopted: seq<Segment>, played: seq<Segment>, queue: seq<Audio>,
      playing: Option<Audio>, segments: seq<Segment>)
    requires NothingLost(adopted, played, queue, playing)
    requires SegmentsOf(queue + Fresh(segments)) == SegmentsOf(queue) + segments
    ensures NothingLost(adopted + segments, played, queue + Fresh(segments), playing)
  {
  }

  lemma SpeechTakesIn(released: Text, committed: nat, adopted: seq<Segment>, played: seq<Segment>,
      segments: seq<Segment>, to: nat)
    requires SpeechKept(released, committed, adopted, played) && Tiles(segments, released, committed, to)
    ensures SpeechKept(released, to, adopted + segments, played)
  {
    TilesJoin(adopted, segments, released, 0, committed, to);
  }

  lemma SegmentsHead(queue: seq<Audio>)
    requires queue != []
    ensures SegmentsOf(queue) == [queue[0].segment] + SegmentsOf(queue[1..])
  {
  }

  /** The head of the queue is played. */
  lemma HeadPlayed(adopted: seq<Segment>, played: seq<Segment>, queue: seq<Audio>)
    requires NothingLost(adopted, played, queue, None) && queue != []
    ensures NothingLost(adopted, played + [queue[0].segment], queue[1..], Some(queue[0]))
    ensures played + [queue[0].segment] <= adopted
  {
    SegmentsHead(queue);
    Regroup(played, [queue[0].segment], SegmentsOf(queue[1..]));
  }

  lemma Regroup(a: seq<Segment>, b: seq<Segment>, c: seq<Segment>)
    ensures a + (b + c) == (a + b) + c && a + b <= a + (b + c)
  {
  }

  lemma LimitsAfterHead(queue: seq<Audio>, limits: Limits)
    requires WithinLimits(queue, None, limits) && queue != []
    ensures WithinLimits(queue[1..], Some(queue[0]), limits)
  {
  }

  /** One queued segment becomes ready. */
  lemma LimitsAfterReady(queue: seq<Audio>, playing: Option<Audio>, limits: Limits, at: nat, ms: real)
    requires WithinLimits(queue, playing, limits) && at < |queue| && !queue[at].ready
    requires ms > 0.0 && Buffered(queue, playing) + ms <= limits.audioMs
    ensures WithinLimits(queue[at := queue[at].(ready := true, duration := Some(ms))], playing, limits)
    ensures SegmentsOf(queue[at := queue[at].(ready := true, duration := Some(ms))]) == SegmentsOf(queue)
  {
    TotalSet(queue, at, queue[at].(ready := true, duration := Some(ms)));
  }

  lemma LimitsAfterEnd(queue: seq<Audio>, playing: Option<Audio>, limits: Limits)
    requires WithinLimits(queue, playing, limits)
    ensures WithinLimits(queue, None, limits)
  {
  }

  /** What has been played is the beginning of what was released, whatever happens to the rest. */
  lemma SpokenIsReleased(released: Text, committed: nat, adopted: seq<Segment>, played: seq<Segment>)
    requires SpeechKept(released, committed, adopted, played)
    ensures TextOf(played) <= released
    ensures played == adopted ==> TextOf(played) == released[..committed]
  {
    TilesText(adopted, released, 0, committed);
    var at := TilesPrefix(adopted, released, 0, committed, |played|);
    assert adopted[..|played|] == played;
    TilesText(played, released, 0, at);
  }

  /** More text is released; what was adopted is as it was. */
  lemma ReleasedMore(released: Text, committed: nat, pending: Text, context: Text, adopted: seq<Segment>,
      played: seq<Segment>, more: Text)
    requires TextKept(released, committed, pending, context) && SpeechKept(released, committed, adopted, played)
    ensures TextKept(released + more, committed, pending + more, context)
    ensures SpeechKept(released + more, committed, adopted, played)
  {
    assert (released + more)[..committed] == released[..committed];
    assert (released + more)[committed..] == pending + more;
    TilesLonger(adopted, released, released + more, 0, committed);
  }

  /** Code points move from pending to consumed; the context moves along. */
  lemma Consumed(released: Text, committed: nat, pending: Text, context: Text, to: nat)
    requires TextKept(released, committed, pending, context) && committed <= to <= |released|
    ensures to - committed <= |pending| && (to == |released| || pending == [] ==> pending[to - committed..] == [])
    ensures TextKept(released, to, pending[to - committed..], LastOf(context + pending[..to - committed], 256))
  {
    var n := to - committed;
    var chars := pending[..n];
    assert released[..to] == released[..committed] + chars;
    assert released[to..] == pending[n..];
    LastOfBoth(released[..committed], chars);
  }

  lemma LastOfBoth(a: Text, b: Text)
    ensures LastOf(LastOf(a, 256) + b, 256) == LastOf(a + b, 256)
  {
    if |a| > 256 {
      var c := a[|a| - 256..];
      assert a + b == a[..|a| - 256] + (c + b);
      if |c + b| > 256 { assert (c + b)[|c + b| - 256..] == (a + b)[|a + b| - 256..]; }
    }
  }

  // ----- the harness -----

  datatype ReleaseResult = Released | StreamClosed | PendingLimit

  class Harness {
    const limits: Limits
    var pending: Text
    var context: Text
    var version: nat
    var generation: nat
    var committed: nat
    var eos: bool
    var active: bool
    var lastDispatch: Option<real>
    var pendingSince: real
    var lastJudged: int
    var flight: Option<Flight>
    var flights: nat
    var queue: seq<Audio>
    var playing: Option<Audio>
    var pauseUntil: real
    var status: Phase
    ghost var released: Text
    ghost var adopted: seq<Segment>
    ghost var played: seq<Segment>

    ghost predicate Valid()
      reads this
    {
      && TextKept(released, committed, pending, context)
      && SpeechKept(released, committed, adopted, played)
      && WithinLimits(queue, playing, limits)
      && (active ==> NothingLost(adopted, played, queue, playing))
      && (active <==> status in {Active, Completed, Unresolved})
      && (!active ==> queue == [] && playing == None && flight == None)
      && (status == Completed ==> eos && pending == [])
      && (flight.Some? ==> flight.value.id < flights)
    }

    /** The histories only grow. */
    twostate predicate Grows()
      reads this
    {
      old(released) <= released && old(adopted) <= adopted && old(played) <= played
    }

    /** Nothing about the text changes. */
    twostate predicate SameText()
      reads this
    {
      released == old(released) && committed == old(committed) && pending == old(pending) && context == old(context)
      && eos == old(eos) && adopted == old(adopted)
    }

    constructor (l: Limits)
      requires l.audioMs >= 0.0
      ensures Valid() && limits == l && released == [] && adopted == [] && played == [] && status == Active
    {
      limits := l;
      pending, context, version, generation, committed, eos, active := [], [], 0, 0, 0, false, true;
      lastDispatch, pendingSince, lastJudged, flight, flights := None, 0.0, -1, None, 0;
      queue, playing, pauseUntil := [], None, 0.0;
      status, released, adopted, played := Active, [], [], [];
    }

    method Release(text: Text, now: real) returns (r: ReleaseResult)
      requires Valid()
      modifies this
      ensures Valid() && Grows()
      ensures r == StreamClosed <==> old(!active || eos)
      ensures r == PendingLimit <==> old(active && !eos) && |old(pending)| + |text| > limits.pendingCodePoints
      ensures r == Released ==> released == old(released) + text && pending == old(pending) + text && committed == old(committed)
      ensures r != Released ==> SameText() && version == old(version)
      ensures |pending| <= limits.pendingCodePoints || pending == old(pending)
    {
      hide TextKept, SpeechKept, WithinLimits;
      if !active || eos { return StreamClosed; }
      if |pending + text| > limits.pendingCodePoints { return PendingLimit; }
      if pending == [] { pendingSince := now; }
      ReleasedMore(released, committed, pending, context, adopted, played, text);
      pending := pending + text;
      released := released + text;
      version := version + 1;
      return Released;
    }

    method Finish()
      requires Valid()
      modifies this`eos, this`version
      ensures Valid() && eos
    {
      eos := true;
      version := version + 1;
    }

    function Snapshot_(): Snapshot
      reads this
    {
      Snapshot(generation, version, committed, pending, committed, eos, context)
    }

    /**
     There is something new to judge, room for one more segment, and before the end of input enough time has passed.
     */
    predicate WantsJudgement(now: real)
      reads this
    {
      && status == Active && flight == None && lastJudged != version && (pending != [] || eos)
      && |queue| + (if playing.Some? then 1 else 0) < limits.audioSegments
      && (eos || ((lastDispatch.Some? ==> now - lastDispatch.value >= limits.holdMs)
        && now - pendingSince >= limits.holdMs))
    }

    /** A flight is sent exactly when one is wanted: one at a time, with the text as it is. */
    method Dispatch(now: real) returns (r: Option<Flight>)
      requires Valid()
      modifies this`flight, this`flights, this`lastDispatch
      ensures Valid()
      ensures r.Some? <==> old(WantsJudgement(now))
      ensures r == None ==> flight == old(flight) && flights == old(flights) && lastDispatch == old(lastDispatch)
      ensures r.Some? ==>
                && flight == r && lastDispatch == Some(now)
                && r.value == Flight(old(flights), Snapshot_(), now + limits.timeoutMs)
    {
      if !active || status != Active || flight.Some? || lastJudged == version
         || |queue| >= limits.audioSegments || (playing.Some? && |queue| + 1 >= limits.audioSegments)
         || (!eos && ((lastDispatch.Some? && now - lastDispatch.value < limits.holdMs)
           || now - pendingSince < limits.holdMs)) {
        return None;
      }
      if pending == [] && !eos { return None; }
      flight := Some(Flight(flights, Snapshot_(), now + limits.timeoutMs));
      flights := flights + 1;
      lastDispatch := Some(now);
      return flight;
    }

    method Cancel()
      requires Valid()
      modifies this
      ensures Valid() && !active && status == Cancelled && generation == old(generation) + 1
          && pauseUntil == old(pauseUntil)
      ensures SameText() && played == old(played)
    {
      hide TextKept, SpeechKept, NothingLost, Buffered;
      active, status, generation := false, Cancelled, generation + 1;
      flight, queue, playing := None, [], None;
      NothingBuffered(old(queue), old(playing), limits);
    }

    lemma NothingBuffered(q: seq<Audio>, p: Option<Audio>, l: Limits)
      requires WithinLimits(q, p, l)
      ensures WithinLimits([], None, l)
    {
      NotNegative(q);
    }

    lemma {:induction false} NotNegative(q: seq<Audio>)
      requires forall i :: 0 <= i < |q| ==> GoodAudio(q[i])
      ensures Total(q) >= 0.0
    {
      if q != [] {
        assert GoodAudio(q[0]);
        NotNegative(q[1..]);
      }
    }

    method Fail()
      requires Valid()
      modifies this
      ensures Valid() && !active && status == Failed && pauseUntil == old(pauseUntil)
      ensures SameText() && played == old(played)
    {
      Cancel();
      status := Failed;
    }

    /** Reasons for which an answer is dropped without failing the stream. */
    predicate Harmless(reason: string) {
      reason in {"cancelled", "old_generation", "old_input_version", "snapshot_mismatch"}
    }

    /**
     An adopted answer consumes exactly the text its segments tile and puts them at the end of the queue; otherwise the text
     is as it was.
     */
    method Adopt(f: Flight, value: Option<Answer>, now: real) returns (ok: bool)
      requires Valid()
      modifies this
      ensures Valid() && Grows() && released == old(released) && played == old(played)
      ensures ok ==>
                && old(flight) == Some(f) && value.Some?
                && Inspect(value, f.snapshot, old(Snapshot_()), old(active), now, f.deadline) == Accepted(value.value)
                && committed == value.value.committed && adopted == old(adopted) + value.value.segments
                && (value.value.status == Complete ==> status == Completed)
                && (status !in {Failed, Cancelled} ==>
                  SegmentsOf(queue) == SegmentsOf(old(queue)) + value.value.segments)
      ensures !ok ==> SameText()
      ensures !ok && old(flight) != Some(f) ==> status == old(status) && queue == old(queue) && flight == old(flight)
    {
      if flight != Some(f) { return false; }
      flight := None;
      hide Inspect, WithinLimits, SpeechKept, NothingLost, TextKept;
      var inspected := Inspect(value, f.snapshot, Snapshot_(), active, now, f.deadline);
      if inspected.Rejected? {
        if !Harmless(inspected.reason) { Fail(); }
        return false;
      }
      AcceptedMeans(value, f.snapshot, Snapshot_(), active, now, f.deadline);
      ok := TakeIfRoom(f, inspected.answer, now);
    }

    /** An accepted answer is taken in unless its segments would be too many to hold. */
    method TakeIfRoom(f: Flight, answer: Answer, now: real) returns (ok: bool)
      requires Valid() && flight == None
      requires Inspect(Some(answer), f.snapshot, Snapshot_(), active, now, f.deadline) == Accepted(answer)
      modifies this
      ensures Valid() && Grows() && released == old(released) && played == old(played)
      ensures ok ==>
                && committed == answer.committed && adopted == old(adopted) + answer.segments
                && (answer.status == Complete ==> status == Completed)
                && (status !in {Failed, Cancelled} ==> SegmentsOf(queue) == SegmentsOf(old(queue)) + answer.segments)
      ensures !ok ==> SameText()
    {
      hide Inspect, WithinLimits, SpeechKept, NothingLost, TextKept;
      if |answer.segments| + |queue| + (if playing.Some? then 1 else 0) > limits.audioSegments { return false; }
      TakeIn(f, answer, now);
      Conclude(answer.status);
      return true;
    }

    /** The status an answer gives the stream. */
    method Conclude(verdict: SpeechSegments.Status)
      requires Valid() && active && (verdict == Complete ==> eos && pending == [])
      modifies this
      ensures Valid() && SameText() && played == old(played)
      ensures verdict == Complete ==> status == Completed
      ensures status !in {Failed, Cancelled} ==> queue == old(queue)
    {
      if verdict == Complete { status := Completed; }
      if verdict == Unclear { status := Unresolved; }
      if verdict == Failure { Fail(); }
    }

    /** The segments of an accepted answer enter the queue, and the text they tile is consumed. */
    method TakeIn(f: Flight, answer: Answer, now: real)
      requires Valid() && flight == None
      requires Inspect(Some(answer), f.snapshot, Snapshot_(), active, now, f.deadline) == Accepted(answer)
      requires |answer.segments| + |queue| + (if playing.Some? then 1 else 0) <= limits.audioSegments
      modifies this`lastJudged, this`queue, this`context, this`pending, this`committed
      modifies this`adopted, this`version, this`pendingSince
      ensures Valid() && active
      ensures committed == answer.committed && adopted == old(adopted) + answer.segments
      ensures SegmentsOf(queue) == SegmentsOf(old(queue)) + answer.segments
      ensures answer.status == Complete ==> eos && pending == []
    {
      hide WithinLimits, SpeechKept, NothingLost, Inspect, LastOf, TextKept, SegmentsOf;
      AllKept(f, answer, now);
      Store(f, answer, now);
    }

    /** The assignments, once all is known. */
    method Store(f: Flight, answer: Answer, now: real)
      requires committed <= answer.committed <= committed + |pending|
      modifies this`lastJudged, this`queue, this`context, this`pending, this`committed
      modifies this`adopted, this`version, this`pendingSince
      ensures queue == old(queue) + Fresh(answer.segments) && adopted == old(adopted) + answer.segments
      ensures context == LastOf(old(context) + old(pending)[..answer.committed - old(committed)], 256)
      ensures pending == old(pending)[answer.committed - old(committed)..] && committed == answer.committed
      ensures lastJudged == f.snapshot.version && version == (if committed == old(committed) then old(version)
          else old(version) + 1)
      ensures pendingSince == (if committed == old(committed) then old(pendingSince) else now)
    {
      hide *;
      lastJudged := f.snapshot.version;
      queue := queue + Fresh(answer.segments);
      var consumed := answer.committed - committed;
      context := LastOf(context + pending[..consumed], 256);
      pending := pending[consumed..];
      committed := answer.committed;
      adopted := adopted + answer.segments;
      if consumed != 0 {
        version := version + 1;
        pendingSince := now;
      }
    }

    /** The text fields that an accepted answer leads to. */
    lemma TextAfter(f: Flight, answer: Answer, now: real)
      requires Valid()
      requires Inspect(Some(answer), f.snapshot, Snapshot_(), active, now, f.deadline) == Accepted(answer)
      ensures active && committed <= answer.committed <= committed + |pending|
      ensures answer.status == Complete || pending == [] ==> pending[answer.committed - committed..] == []
      ensures answer.status == Complete ==> eos
      ensures TextKept(released, answer.committed, pending[answer.committed - committed..],
                       LastOf(context + pending[..answer.committed - committed], 256))
      ensures SpeechKept(released, answer.committed, adopted + answer.segments, played)
    {
      InspectedText(f, answer, now);
      hide WithinLimits, SpeechKept, NothingLost, Inspect, LastOf, TextKept, Tiles;
      SpeechTakesIn(released, committed, adopted, played, answer.segments, answer.committed);
      Consumed(released, committed, pending, context, answer.committed);
    }

    /** The queue that it leads to. */
    lemma QueueAfter(segments: seq<Segment>)
      requires Valid() && active
      requires |segments| + |queue| + (if playing.Some? then 1 else 0) <= limits.audioSegments
      ensures WithinLimits(queue + Fresh(segments), playing, limits)
      ensures SegmentsOf(queue + Fresh(segments)) == SegmentsOf(queue) + segments
      ensures NothingLost(adopted + segments, played, queue + Fresh(segments), playing)
    {
      hide WithinLimits, NothingLost, SegmentsOf, Fresh, TextKept, SpeechKept;
      QueueTakesIn(queue, playing, limits, segments);
      NothingLostMore(adopted, played, queue, playing, segments);
    }

    /** What the new values of the fields will be keeps everything. */
    lemma AllKept(f: Flight, answer: Answer, now: real)
      requires Valid()
      requires Inspect(Some(answer), f.snapshot, Snapshot_(), active, now, f.deadline) == Accepted(answer)
      requires |answer.segments| + |queue| + (if playing.Some? then 1 else 0) <= limits.audioSegments
      ensures active && committed <= answer.committed <= committed + |pending|
      ensures answer.status == Complete || pending == [] ==> pending[answer.committed - committed..] == []
      ensures answer.status == Complete ==> eos
      ensures TextKept(released, answer.committed, pending[answer.committed - committed..],
                       LastOf(context + pending[..answer.committed - committed], 256))
      ensures SpeechKept(released, answer.committed, adopted + answer.segments, played)
      ensures WithinLimits(queue + Fresh(answer.segments), playing, limits)
      ensures SegmentsOf(queue + Fresh(answer.segments)) == SegmentsOf(queue) + answer.segments
      ensures NothingLost(adopted + answer.segments, played, queue + Fresh(answer.segments), playing)
    {
      hide WithinLimits, SpeechKept, NothingLost, Inspect, LastOf, TextKept, SegmentsOf;
      TextAfter(f, answer, now);
      QueueAfter(answer.segments);
    }

    lemma InspectedText(f: Flight, answer: Answer, now: real)
      requires Valid()
      requires Inspect(Some(answer), f.snapshot, Snapshot_(), active, now, f.deadline) == Accepted(answer)
      ensures active && committed <= answer.committed <= |released|
      ensures Tiles(answer.segments, released, committed, answer.committed)
      ensures answer.status == Complete ==> eos && answer.committed == |released|
    {
      AcceptedTiles(Some(answer), f.snapshot, Snapshot_(), active, now, f.deadline, released);
    }

    /** `queue.find((a) => a.segment.start === start)`, as a position. */
    method Find(start: nat) returns (at: nat)
      ensures at <= |queue| && (forall i :: 0 <= i < at ==> queue[i].segment.start != start)
      ensures at < |queue| ==> queue[at].segment.start == start
    {
      at := 0;
      while at < |queue| && queue[at].segment.start != start
        invariant at <= |queue| && forall i :: 0 <= i < at ==> queue[i].segment.start != start
      {
        at := at + 1;
      }
    }

    /** The queued segments start at different positions. */
    lemma QueueStarts(i: nat, j: nat)
      requires Valid() && active && i < |queue| && j < |queue| && queue[i].segment.start == queue[j].segment.start
      ensures i == j
    {
      TilesStarts(adopted, released, 0, committed);
      assert adopted[|played| + i] == SegmentsOf(queue)[i] && adopted[|played| + j] == SegmentsOf(queue)[j];
    }

    /** The synthesized audio of this segment is at hand. */
    ghost predicate AtHand(segment: Segment)
      reads this
    {
      exists a :: (a in queue || playing == Some(a)) && a.segment == segment && a.ready
    }

    /** The audio of this queued segment is still to come. */
    predicate Awaited(start: nat)
      reads this
    {
      exists a :: a in queue && a.segment.start == start && !a.ready
    }

    /** A duration that is not a positive number, or too long for the buffer; `None` is one that is not finite. */
    predicate Unfit(duration: Option<real>)
      reads this
    {
      duration == None || duration.value <= 0.0 || Buffered(queue, playing) + duration.value > limits.audioMs
    }

    /** The audio of a queued segment is at hand afterwards, unless the stream failed, and when it does is exact. */
    method AudioReady(start: nat, gen: nat, duration: Option<real>, now: real)
      requires Valid()
      modifies this
      ensures Valid() && Grows() && SameText()
      ensures old(active) && gen == old(generation) && active ==>
                forall a :: a in old(queue) && a.segment.start == start ==> AtHand(a.segment)
      ensures status == if old(active && gen == generation && Awaited(start) && (Unfit(duration) || Overdue(now)))
          then Failed else old(status)
    {
      hide TextKept, SpeechKept, WithinLimits, NothingLost;
      if !active || gen != generation { return; }
      var at := Find(start);
      forall i: nat | i < |queue| && queue[i].segment.start == start ensures i == at { QueueStarts(i, at); }
      if at == |queue| || queue[at].ready {
        assert !Awaited(start);
        assert at < |queue| ==> AtHand(queue[at].segment);
        return;
      }
      assert queue[at] in queue && Awaited(start);
      if duration == None || duration.value <= 0.0 || Buffered(queue, playing) + duration.value > limits.audioMs {
        Fail();
        return;
      }
      MarkReady(at, duration.value);
      ghost var ready := queue[at];
      assert ready in queue;
      Tick(now);
      if active && ready !in queue { assert playing == Some(ready); }
    }

    method MarkReady(at: nat, ms: real)
      requires Valid() && active && at < |queue| && !queue[at].ready && ms > 0.0
          && Buffered(queue, playing) + ms <= limits.audioMs
      modifies this`queue
      ensures Valid() && queue == old(queue)[at := old(queue)[at].(ready := true, duration := Some(ms))]
    {
      hide WithinLimits, Buffered;
      LimitsAfterReady(queue, playing, limits, at, ms);
      queue := queue[at := queue[at].(ready := true, duration := Some(ms))];
    }

    method AudioFailed(start: nat, gen: nat)
      requires Valid()
      modifies this
      ensures Valid() && SameText() && played == old(played)
      ensures status == if old(active && gen == generation && exists a :: a in queue && a.segment.start == start)
          then Failed else old(status)
    {
      if !active || gen != generation { return; }
      var at := Find(start);
      if at == |queue| { return; }
      Fail();
    }

    function PauseFor(p: Pause): real {
      match p
      case NoPause => 0.0
      case Short => 120.0
      case Sentence => 300.0
    }

    /** The end of the playing segment starts its pause. */
    method Ended(start: nat, gen: nat, now: real)
      requires Valid()
      modifies this
      ensures Valid() && Grows() && SameText()
      ensures old(active) && gen == old(generation) && old(playing).Some?
              && old(playing).value.segment.start == start ==>
                pauseUntil == now + PauseFor(old(playing).value.segment.pause)
                && (playing == None || (old(queue) != [] && playing == Some(old(queue)[0])
                  && old(playing).value.segment.pause == NoPause))
    {
      if !active || gen != generation || playing == None || playing.value.segment.start != start { return; }
      pauseUntil := now + PauseFor(playing.value.segment.pause);
      LimitsAfterEnd(queue, playing, limits);
      playing := None;
      Tick(now);
    }

    /** A flight past its deadline, or text that has been pending for too long. */
    predicate Overdue(now: real)
      reads this
    {
      (flight.Some? && now >= flight.value.deadline)
      || (status == Active && pending != [] && now - pendingSince >= limits.stallMs)
    }

    /** The next segment is played exactly when none is playing, the pause is over and its audio is ready. */
    method Tick(now: real)
      requires Valid()
      modifies this
      ensures Valid() && Grows() && SameText() && pauseUntil == old(pauseUntil)
      ensures status == if old(Overdue(now)) then Failed else old(status)
      ensures if !old(Overdue(now)) && old(active) && old(playing) == None && now >= old(pauseUntil) && old(queue) != []
          && old(queue)[0].ready
              then played == old(played) + [old(queue)[0].segment] && queue == old(queue)[1..] && playing == Some(old(queue)[0])
              else played == old(played) && (active ==> queue == old(queue) && playing == old(playing))
    {
      hide WithinLimits, SpeechKept, NothingLost, TextKept;
      if flight.Some? && now >= flight.value.deadline { Fail(); }
      if status == Active && pending != [] && now - pendingSince >= limits.stallMs { Fail(); }
      if !active || playing.Some? || now < pauseUntil { return; }
      if queue != [] && queue[0].ready {
        PlayNext();
      }
    }

    method PlayNext()
      requires Valid() && active && playing == None && queue != [] && queue[0].ready
      modifies this`playing, this`queue, this`played
      ensures Valid() && played == old(played) + [old(queue)[0].segment] && queue == old(queue)[1..]
          && playing == Some(old(queue)[0])
    {
      hide WithinLimits, NothingLost;
      HeadPlayed(adopted, played, queue);
      LimitsAfterHead(queue, limits);
      playing := Some(queue[0]);
      played := played + [queue[0].segment];
      queue := queue[1..];
    }

    /** What has been spoken so far is the beginning of what has been released. */
    lemma SpokenIsPrefix()
      requires Valid()
      ensures TextOf(played) <= released && |TextOf(played)| <= committed
    {
      SpokenIsReleased(released, committed, adopted, played);
      TilesText(adopted, released, 0, committed);
      var at := TilesPrefix(adopted, released, 0, committed, |played|);
      assert adopted[..|played|] == played;
      TilesText(played, released, 0, at);
    }

    /** `isDrained` */
    predicate IsDrained()
      reads this
    {
      status == Completed && queue == [] && playing == None
    }

    /** A drained stream has spoken all that was released, and nothing more will be. */
    lemma DrainedSpokeEverything()
      requires Valid() && IsDrained()
      ensures TextOf(played) == released && eos
    {
      assert adopted == played + SegmentsOf(queue) == played;
      SpokenIsReleased(released, committed, adopted, played);
      assert released[..committed] == released;
    }
  }
}
