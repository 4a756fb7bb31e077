/** The segment loop of the prototype. */
module SegmentPilot {
  import opened Prelude
  import opened SpeechSegments

  // The segment loop of the segmentation prototype. What the two heads predict is given per code point: a language, a boundary
  // class (0 is none, the text goes on) and whether the language is certain enough.

  datatype Prediction = Prediction(text: Text, language: seq<Language>, boundary: seq<nat>, certain: seq<bool>, eos: bool)

  predicate WellFormed(p: Prediction) {
    |p.language| == |p.boundary| == |p.certain| == |p.text| && forall i :: 0 <= i < |p.boundary| ==> p.boundary[i] < 4
  }

  /** A boundary is predicted before this position, or the text ends here for good. */
  predicate Cut(p: Prediction, at: nat)
    requires WellFormed(p)
  {
    0 < at <= |p.text| && (p.boundary[at - 1] != 0 || (p.eos && at == |p.text|))
  }

  predicate LanguageChange(p: Prediction, at: nat)
    requires WellFormed(p)
  {
    0 < at < |p.text| && p.language[at] != p.language[at - 1]
  }

  predicate CertainIn(p: Prediction, from: nat, to: nat)
    requires WellFormed(p) && to <= |p.text|
  {
    forall i :: from <= i < to ==> p.certain[i]
  }

  /** The boundary classes: continue, no pause, a short pause, a sentence pause. */
  function PauseOf(boundary: nat): Pause { if boundary == 2 then Short else if boundary == 3 then Sentence
      else NoPause }

  /** A segment has the language of all its code points, and a pause only at a predicted boundary. */
  predicate GoodSegment(p: Prediction, s: Segment)
    requires WellFormed(p)
  {
    && s.start < s.end <= |p.text|
    && (forall i :: s.start <= i < s.end ==> p.language[i] == s.language)
    && s.pause == (if Cut(p, s.end) then PauseOf(p.boundary[s.end - 1]) else NoPause)
  }

  predicate IsEnd(segments: seq<Segment>, at: nat) { exists k :: 0 <= k < |segments| && segments[k].end == at }

  /** Up to a position, segments end exactly at cuts and at changes of language. */
  ghost predicate EndsExactly(p: Prediction, segments: seq<Segment>, upTo: nat)
    requires WellFormed(p)
  {
    forall at: nat :: 0 < at <= upTo ==> (IsEnd(segments, at) <==> Cut(p, at) || LanguageChange(p, at))
  }

  /** The segments up to a position: an exact tiling by maximal runs of one language between cuts. */
  ghost predicate Runs(p: Prediction, segments: seq<Segment>, upTo: nat)
    requires WellFormed(p)
  {
    && Tiles(segments, p.text, 0, upTo)
    && (forall k :: 0 <= k < |segments| ==> GoodSegment(p, segments[k]))
    && EndsExactly(p, segments, upTo)
  }

  datatype Output = Output(segments: seq<Segment>, committed: nat, status: SpeechSegments.Status)

  method Predict(p: Prediction) returns (out: Output)
    requires WellFormed(p)
    ensures Predicted(p, out)
    ensures CertainIn(p, 0, out.committed) && (out.committed == 0 || Cut(p, out.committed))
    ensures forall at :: out.committed < at <= |p.text| && Cut(p, at)
                         && (forall c :: out.committed < c < at ==> !Cut(p, c)) ==>
              !CertainIn(p, out.committed, at)
  {
    var segments: seq<Segment> := [];
    var start, end: nat := 0, 1;
    NoneYet(p);
    while end <= |p.text|
      invariant start < end <= |p.text| + 1
      invariant Runs(p, segments, start) && CertainIn(p, 0, start) && (start == 0 || Cut(p, start))
      invariant forall c :: start < c < end ==> !Cut(p, c)
    {
      if p.boundary[end - 1] == 0 && !(p.eos && end == |p.text|) {
        end := end + 1;
        continue;
      }
      if !CertainIn(p, start, end) { break; }
      segments := CutRuns(p, segments, start, end);
      start := end;
      end := end + 1;
    }
    out := Output(segments, start,
                  if p.eos then (if start == |p.text| then Complete else Unclear) else if start > 0 then Progress
                    else WaitingMore);
  }

  lemma NoneYet(p: Prediction)
    requires WellFormed(p)
    ensures Runs(p, [], 0)
  {
  }

  /** The inner loop: the stretch between two cuts falls into runs of one language. */
  method CutRuns(p: Prediction, before: seq<Segment>, start: nat, end: nat) returns (segments: seq<Segment>)
    requires WellFormed(p) && start < end <= |p.text| && Runs(p, before, start) && Cut(p, end)
    requires forall c :: start < c < end ==> !Cut(p, c)
    ensures Runs(p, segments, end)
  {
    segments := before;
    var runStart := start;
    for i := start + 1 to end + 1
      invariant start <= runStart < i && (i == end + 1 ==> runStart == end) && (i <= end ==> runStart < end)
      invariant Runs(p, segments, runStart)
      invariant i <= end ==> forall j :: runStart <= j < i ==> p.language[j] == p.language[runStart]
    {
      if i == end || p.language[i] != p.language[runStart] {
        var pause := if i == end && p.boundary[end - 1] != 0 then PauseOf(p.boundary[end - 1]) else NoPause;
        var s := Segment(runStart, i, p.text[runStart..i], p.language[runStart], pause);
        assert GoodSegment(p, s);
        hide Runs, GoodSegment;
        OneMoreRun(p, segments, s);
        segments := segments + [s];
        runStart := i;
      }
    }
  }

  lemma OneMoreRun(p: Prediction, segments: seq<Segment>, s: Segment)
    requires WellFormed(p) && Runs(p, segments, s.start) && GoodSegment(p, s) && s.text == p.text[s.start..s.end]
    requires Cut(p, s.end) || LanguageChange(p, s.end)
    requires forall at :: s.start < at < s.end ==> !Cut(p, at)
    ensures Runs(p, segments + [s], s.end)
  {
    var more := segments + [s];
    assert more[..|more| - 1] == segments;
    EndsUpTo(p, segments, s.start);
    forall at: nat | 0 < at <= s.end ensures IsEnd(more, at) <==> Cut(p, at) || LanguageChange(p, at) {
      if at <= s.start {
        assert IsEnd(segments, at) <==> Cut(p, at) || LanguageChange(p, at);
        if IsEnd(segments, at) {
          var k :| 0 <= k < |segments| && segments[k].end == at;
          assert more[k].end == at;
        }
      } else if at == s.end {
        assert more[|segments|].end == at;
      }
    }
  }

  /** The segments of a tiling end within it. */
  lemma EndsUpTo(p: Prediction, segments: seq<Segment>, to: nat)
    requires WellFormed(p) && Tiles(segments, p.text, 0, to)
    ensures forall k :: 0 <= k < |segments| ==> segments[k].end <= to
  {
    if segments != [] {
      EndsUpTo(p, segments[..|segments| - 1], segments[|segments| - 1].start);
    }
  }

  // ----- the contract of the harness -----

  /** The prototype counts from the beginning of its text, an answer from the beginning of the stream. */
  function Shifted(segments: seq<Segment>, offset: nat): seq<Segment> {
    seq(|segments|, i requires 0 <= i < |segments| =>
      segments[i].(start := segments[i].start + offset, end := segments[i].end + offset))
  }

  lemma {:induction false} TilesFollow(segments: seq<Segment>, s: Snapshot, from: nat, to: nat)
    requires Tiles(segments, s.text, from, to)
    ensures Follow(Shifted(segments, s.start), s, s.start + from) == (s.start + to, None)
    decreases |segments|
  {
    if segments != [] {
      hide Tiles;
      var first := TilesFirst(segments, s.text, from, to);
      TilesFollow(segments[1..], s, first, to);
      assert Shifted(segments, s.start)[1..] == Shifted(segments[1..], s.start);
      assert Shifted(segments, s.start)[0] == segments[0].(start := s.start + from, end := s.start + first);
    }
  }

  lemma {:induction false} TilesFirst(segments: seq<Segment>, text: Text, from: nat, to: nat) returns (first: nat)
    requires segments != [] && Tiles(segments, text, from, to)
    ensures first == segments[0].end && segments[0].start == from < first <= |text|
        && segments[0].text == text[from..first]
    ensures Tiles(segments[1..], text, first, to) && first <= to
    decreases |segments|
  {
    first := segments[0].end;
    if |segments| == 1 {
      assert segments[..0] == [];
      assert segments[1..] == [];
    } else {
      var init := segments[..|segments| - 1];
      first := TilesFirst(init, text, from, segments[|segments| - 1].start);
      assert segments[1..][..|segments| - 2] == init[1..];
    }
  }

  /** What `Predict` promises of its output. */
  ghost predicate Predicted(p: Prediction, out: Output)
    requires WellFormed(p)
  {
    && out.committed <= |p.text| && Runs(p, out.segments, out.committed)
    && out.status == if p.eos then (if out.committed == |p.text| then Complete else Unclear)
                     else if out.committed > 0 then Progress else WaitingMore
  }

  /** The answer that carries an output for a snapshot, with the reason and the retry that its status calls for. */
  predicate Carries(a: Answer, out: Output, s: Snapshot) {
    && a.requestId == RequestId && a.generation == s.generation && a.version == s.version
    && a.segments == Shifted(out.segments, s.start) && a.committed == s.start + out.committed && a.status == out.status
    && (a.reason.Some? <==> a.status in {WaitingMore, Unclear})
    && (a.retryAfter.Some? <==> a.status == WaitingMore) && (a.retryAfter.Some? ==> 1 <= a.retryAfter.value <= 1000)
  }

  lemma OutputFollows(p: Prediction, out: Output, s: Snapshot, a: Answer)
    requires WellFormed(p) && Predicted(p, out) && Carries(a, out, s)
    requires s.start == s.committed && s.text == p.text && s.eos == p.eos
    ensures Follow(a.segments, s, s.committed) == (a.committed, None) && StatusFault(a, s, a.committed) == None
  {
    hide Runs, GoodSegment, Tiles;
    assert Tiles(out.segments, s.text, 0, out.committed) by { RunsTile(p, out.segments, out.committed); }
    TilesFollow(out.segments, s, 0, out.committed);
  }

  lemma RunsTile(p: Prediction, segments: seq<Segment>, upTo: nat)
    requires WellFormed(p) && Runs(p, segments, upTo)
    ensures Tiles(segments, p.text, 0, upTo)
  {
  }

  lemma {:induction false} TilesBounds(segments: seq<Segment>, text: Text, from: nat, to: nat, i: nat)
    requires Tiles(segments, text, from, to) && i < |segments|
    ensures segments[i].start < segments[i].end <= |text|
        && segments[i].text == text[segments[i].start..segments[i].end]
  {
    if i < |segments| - 1 { TilesBounds(segments[..|segments| - 1], text, from, segments[|segments| - 1].start, i); }
  }

  /** But for the number of segments the answer has the shape that its schema asks for. */
  lemma OutputIsValid(p: Prediction, out: Output, s: Snapshot, a: Answer)
    requires WellFormed(p) && Predicted(p, out) && Carries(a, out, s) && ValidSnapshot(s) && s.text == p.text
    ensures ValidAnswer(a) <==> |out.segments| <= 64
  {
    forall i | 0 <= i < |a.segments|
      ensures a.segments[i].start < a.segments[i].end && Safe(a.segments[i].end) && Bounded(a.segments[i].text, 4096)
    {
      TilesBounds(out.segments, p.text, 0, out.committed, i);
    }
  }

  /**
   The answer made of an output is accepted, by a snapshot that still stands and in time, exactly if it has at most 64
   segments. That is the only thing the prototype does not see to.
   */
  lemma PredictionsAreAccepted(p: Prediction, out: Output, s: Snapshot, current: Snapshot, a: Answer, now: real,
      deadline: real)
    requires WellFormed(p) && Predicted(p, out) && Carries(a, out, s)
    requires s.start == s.committed && s.text == p.text && s.eos == p.eos
    requires ValidSnapshot(s) && ValidSnapshot(current) && Stale(s, current) == None && now < deadline
    ensures Inspect(Some(a), s, current, true, now, deadline).Accepted? <==> |out.segments| <= 64
  {
    OutputFollows(p, out, s, a);
    OutputIsValid(p, out, s, a);
    hide Predicted, ValidAnswer, ValidSnapshot, Stale, Follow, StatusFault;
  }

  lemma {:induction false} OneEach(segments: seq<Segment>, text: Text, from: nat, to: nat)
    requires Tiles(segments, text, from, to) && from <= to
    requires forall k :: 0 <= k < |segments| ==> segments[k].end == segments[k].start + 1
    ensures |segments| == to - from
  {
    if segments != [] { OneEach(segments[..|segments| - 1], text, from, segments[|segments| - 1].start); }
  }

  /** A text that changes its language at every code point has as many segments as code points are committed. */
  lemma AlternatingText(p: Prediction, out: Output)
    requires WellFormed(p) && Predicted(p, out) && forall at :: 0 < at < |p.text| ==> LanguageChange(p, at)
    ensures |out.segments| == out.committed
  {
    forall k | 0 <= k < |out.segments| ensures out.segments[k].end == out.segments[k].start + 1 {
      var g := out.segments[k];
      assert GoodSegment(p, g);
      assert g.start + 1 < |p.text| ==> LanguageChange(p, g.start + 1);
    }
    OneEach(out.segments, p.text, 0, out.committed);
  }
}
