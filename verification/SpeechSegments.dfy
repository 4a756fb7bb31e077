/** Segments and the inspection of answers. */
module SpeechSegments {
  import opened Prelude

  // Segments of a text and the inspection of a segmentation answer. Text is a sequence of code points; the answer is what the
  // response schema has let through, or nothing. Reading overrides are empty here, as the harness sends none.

  type Text = seq<nat>

  datatype Language = Ja | En
  datatype Pause = NoPause | Short | Sentence

  datatype Segment = Segment(start: nat, end: nat, text: Text, language: Language, pause: Pause)

  datatype Snapshot = Snapshot(generation: nat, version: nat, start: nat, text: Text, committed: nat, eos: bool, context: Text)

  datatype Status = Progress | WaitingMore | Complete | Unclear | Failure

  datatype Answer = Answer(requestId: string, generation: nat, version: nat, segments: seq<Segment>,
                           committed: nat, status: Status,
                           reason: Option<string>, retryAfter: Option<nat>)

  const RequestId := "fixed-stream"

  // ----- tiling -----

  /** The segments follow one another from one position to another, and carry the text between. */
  predicate Tiles(segments: seq<Segment>, text: Text, from: nat, to: nat) {
    if segments == [] then from == to
    else
      var s := segments[|segments| - 1];
      s.end == to && from <= s.start < s.end <= |text| && s.text == text[s.start..s.end]
      && Tiles(segments[..|segments| - 1], text, from, s.start)
  }

  function TextOf(segments: seq<Segment>): Text {
    if segments == [] then [] else TextOf(segments[..|segments| - 1]) + segments[|segments| - 1].text
  }

  lemma {:induction false} TilesText(segments: seq<Segment>, text: Text, from: nat, to: nat)
    requires Tiles(segments, text, from, to) && from <= |text|
    ensures from <= to <= |text| && TextOf(segments) == text[from..to]
  {
    if segments != [] {
      var s := segments[|segments| - 1];
      TilesText(segments[..|segments| - 1], text, from, s.start);
      assert text[from..s.start] + text[s.start..s.end] == text[from..to];
    }
  }

  lemma {:induction false} TilesJoin(a: seq<Segment>, b: seq<Segment>, text: Text, from: nat, mid: nat, to: nat)
    requires Tiles(a, text, from, mid) && Tiles(b, text, mid, to) && from <= mid
    ensures Tiles(a + b, text, from, to) && mid <= to
  {
    if b == [] {
      assert a + b == a;
    } else {
      var s := b[|b| - 1];
      TilesJoin(a, b[..|b| - 1], text, from, mid, s.start);
      assert (a + b)[..|a + b| - 1] == a + b[..|b| - 1];
    }
  }

  /** What is said of a text is said of every longer text. */
  lemma {:induction false} TilesLonger(segments: seq<Segment>, text: Text, longer: Text, from: nat, to: nat)
    requires Tiles(segments, text, from, to) && text <= longer
    ensures Tiles(segments, longer, from, to)
  {
    if segments != [] {
      var s := segments[|segments| - 1];
      assert longer[s.start..s.end] == text[s.start..s.end];
      TilesLonger(segments[..|segments| - 1], text, longer, from, s.start);
    }
  }

  /** A prefix of the segments tiles a prefix of the range. */
  lemma {:induction false} TilesPrefix(segments: seq<Segment>, text: Text, from: nat, to: nat, n: nat) returns (at: nat)
    requires Tiles(segments, text, from, to) && n <= |segments| && from <= to
    ensures from <= at <= to && Tiles(segments[..n], text, from, at)
  {
    if n == |segments| {
      at := to;
      assert segments[..n] == segments;
    } else {
      var s := segments[|segments| - 1];
      at := TilesPrefix(segments[..|segments| - 1], text, from, s.start, n);
      assert segments[..|segments| - 1][..n] == segments[..n];
    }
  }

  /** Different segments start at different positions. */
  lemma {:induction false} TilesStarts(segments: seq<Segment>, text: Text, from: nat, to: nat)
    requires Tiles(segments, text, from, to)
    ensures forall i :: 0 <= i < |segments| ==> from <= segments[i].start < to
    ensures forall i, j :: 0 <= i < j < |segments| ==> segments[i].start < segments[j].start
  {
    if segments != [] {
      TilesStarts(segments[..|segments| - 1], text, from, segments[|segments| - 1].start);
    }
  }

  // ----- inspection -----

  predicate Scalar(c: nat) { c < 0xD800 || 0xE000 <= c < 0x11_0000 }

  predicate Bounded(t: Text, most: nat) { |t| <= most && forall i :: 0 <= i < |t| ==> Scalar(t[i]) }

  predicate Safe(n: int) { 0 <= n < 0x20_0000_0000_0000 }

  /** The schema of a snapshot. */
  predicate ValidSnapshot(s: Snapshot) {
    && Safe(s.generation) && Safe(s.version) && Safe(s.start) && Safe(s.committed) && Safe(s.start + |s.text|)
    && Bounded(s.text, 4096) && Bounded(s.context, 256)
    && s.start <= s.committed <= s.start + |s.text|
  }

  /** The schema of an answer, beyond its shape. */
  predicate ValidAnswer(a: Answer) {
    && 1 <= |a.requestId| <= 128 && Safe(a.generation) && Safe(a.version) && Safe(a.committed) && |a.segments| <= 64
    && (forall i :: 0 <= i < |a.segments| ==>
          a.segments[i].start < a.segments[i].end && Safe(a.segments[i].end) && Bounded(a.segments[i].text, 4096))
    && (a.retryAfter.Some? ==> 1 <= a.retryAfter.value <= 1000)
  }

  datatype Verdict = Accepted(answer: Answer) | Rejected(reason: string)

  /** Whether the snapshot the request was made of still stands: the same, or only text was appended since. */
  function Stale(s: Snapshot, current: Snapshot): Option<string> {
    if s.generation != current.generation then Some("old_generation")
    else if s.version != current.version then
      if s.version > current.version then Some("old_input_version")
      else if s.eos || !(s.text <= current.text) || s.start != current.start || s.committed != current.committed
              || s.context != current.context then Some("snapshot_mismatch")
      else None
    else if s != current then Some("snapshot_mismatch")
    else None
  }

  /** The loop over the segments: where they end, or what is wrong with them. */
  function Follow(segments: seq<Segment>, s: Snapshot, next: nat): (r: (nat, Option<string>))
    requires s.start <= next
    decreases |segments|
  {
    if segments == [] then (next, None)
    else
      var g := segments[0];
      if g.start != next || g.end > s.start + |s.text| then (next, Some("noncontiguous_segments"))
      else if g.end < g.start || g.text != s.text[g.start - s.start..g.end - s.start]
        then (next, Some("source_mismatch"))
      else Follow(segments[1..], s, g.end)
  }

  function StatusFault(a: Answer, s: Snapshot, next: nat): Option<string> {
    var end, advanced := s.start + |s.text|, next > s.committed;
    if a.status == Complete && (!s.eos || next != end || a.reason.Some?) then Some("invalid_completion")
    else if a.status == Progress && (!advanced || (s.eos && next == end) || a.reason.Some?)
      then Some("invalid_progress")
    else if a.status == WaitingMore && (advanced || s.eos || a.reason == None || a.retryAfter == None)
      then Some("invalid_wait")
    else if a.status == Unclear && (!s.eos || next >= end || a.reason == None) then Some("invalid_unresolved")
    else if a.status == Failure && (advanced || a.reason == None) then Some("invalid_failure")
    else if a.status != WaitingMore && a.retryAfter.Some? then Some("unexpected_retry")
    else None
  }

  /** `inspectSpeechSegmentationResponse`, with append-only versions allowed. */
  function Inspect(value: Option<Answer>, s: Snapshot, current: Snapshot, active: bool, now: real,
      deadline: real): Verdict {
    if !active then Rejected("cancelled")
    else if now >= deadline then Rejected("expired")
    else if !ValidSnapshot(s) || !ValidSnapshot(current) then Rejected("invalid_snapshot")
    else if Stale(s, current).Some? then Rejected(Stale(s, current).value)
    else if value == None || !ValidAnswer(value.value) then Rejected("schema_mismatch")
    else
      var a := value.value;
      if a.requestId != RequestId || a.generation != s.generation
        || a.version != s.version then Rejected("response_identity_mismatch")
      else
        var (next, fault) := Follow(a.segments, s, s.committed);
        if fault.Some? then Rejected(fault.value)
        else if a.committed != next then Rejected("committed_mismatch")
        else if StatusFault(a, s, next).Some? then Rejected(StatusFault(a, s, next).value)
        else Accepted(a)
  }

  lemma SameSlice(text: Text, from: nat, part: Text, a: nat, b: nat)
    requires from + |part| <= |text| && text[from..from + |part|] == part && a <= b <= |part|
    ensures text[from + a..from + b] == part[a..b]
  {
    var whole := text[from..from + |part|];
    forall k | 0 <= k < b - a ensures text[from + a..from + b][k] == whole[a..b][k] {
      assert whole[a + k] == text[from + a + k];
    }
  }

  lemma OneTile(g: Segment, text: Text)
    requires g.start < g.end <= |text| && g.text == text[g.start..g.end]
    ensures Tiles([g], text, g.start, g.end)
  {
    assert Tiles([], text, g.start, g.start) && [g][..0] == [];
  }

  lemma {:induction false} FollowTiles(segments: seq<Segment>, s: Snapshot, next: nat, text: Text)
    requires s.start <= next <= s.start + |s.text| && Follow(segments, s, next).1 == None
    requires forall i :: 0 <= i < |segments| ==> segments[i].start < segments[i].end
    requires s.start + |s.text| <= |text| && text[s.start..s.start + |s.text|] == s.text
    ensures next <= Follow(segments, s, next).0 <= s.start + |s.text|
    ensures Tiles(segments, text, next, Follow(segments, s, next).0)
    decreases |segments|
  {
    if segments != [] {
      var g := segments[0];
      hide Tiles;
      FollowTiles(segments[1..], s, g.end, text);
      SameSlice(text, s.start, s.text, g.start - s.start, g.end - s.start);
      OneTile(g, text);
      TilesJoin([g], segments[1..], text, next, g.end, Follow(segments, s, next).0);
      assert [g] + segments[1..] == segments;
    }
  }

  /** The request's text is the beginning of the current text, from the same position. */
  lemma NotStale(s: Snapshot, current: Snapshot)
    requires Stale(s, current) == None
    ensures s.start == current.start && s.committed == current.committed && s.text <= current.text
        && (s.eos ==> current.eos && s.text == current.text)
  {
  }

  lemma {:induction false} AcceptedMeans(value: Option<Answer>, s: Snapshot, current: Snapshot, active: bool,
      now: real, deadline: real)
    requires Inspect(value, s, current, active, now, deadline).Accepted?
    ensures value.Some? && Inspect(value, s, current, active, now, deadline).answer == value.value
        && ValidAnswer(value.value)
    ensures Stale(s, current) == None && s.start <= s.committed <= s.start + |s.text|
    ensures Follow(value.value.segments, s, s.committed) == (value.value.committed, None)
    ensures value.value.status == Complete ==> s.eos && value.value.committed == s.start + |s.text|
  {
    hide Stale, ValidAnswer;
  }

  /**
   What acceptance means: the segments tile the newly committed range of the current text, and completion means that all of
   it is committed and no more will come.
   */
  lemma {:induction false} AcceptedTiles(value: Option<Answer>, s: Snapshot, current: Snapshot, active: bool,
      now: real, deadline: real, text: Text)
    requires Inspect(value, s, current, active, now, deadline).Accepted?
    requires current.start == current.committed
    requires current.start + |current.text| == |text| && text[current.start..] == current.text
    ensures var a := Inspect(value, s, current, active, now, deadline).answer;
            && current.committed <= a.committed <= |text|
            && Tiles(a.segments, text, current.committed, a.committed)
            && (a.status == Complete ==> current.eos && a.committed == |text|)
  {
    AcceptedMeans(value, s, current, active, now, deadline);
    NotStale(s, current);
    hide Inspect, Stale, Follow, Tiles;
    assert text[s.start..s.start + |s.text|] == s.text;
    FollowTiles(value.value.segments, s, s.committed, text);
  }
}
