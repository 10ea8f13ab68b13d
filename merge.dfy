/**
  mergeSpeakerSegments of desktop/src/lib/transcript.ts: a left-to-right scan that joins
  consecutive segments of the same speaker. The scan is specified by `Scan`, a left fold of
  the loop body `Step`; `Runs` is an independent description of the result (one segment per
  maximal run of equal speakers) that the scan meets whenever every speaker is non-empty.
*/
module SpeakerMerge {
  import opened Wrappers
  import opened Segments

  /** The loop's variables: `newSegments`, `currentSpeaker` and `currentSegment`. */
  datatype ScanState = ScanState(out: seq<Segment>, current: Option<string>, acc: Segment)

  /** Their values before the first iteration. */
  const Start := ScanState([], None, Segment(0, 0, "", Some("")))

  /** One iteration of the loop, on `segment`. */
  function Step(st: ScanState, segment: Segment): ScanState {
    if !HasSpeaker(st.current) || segment.speaker != st.current then
      // first segment or speaker change: push the previous one unless no speaker was ever recorded
      ScanState(if st.current.Some? then st.out + [st.acc] else st.out, segment.speaker, segment)
    else
      ScanState(st.out, segment.speaker, st.acc.(text := st.acc.text + segment.text, stop := segment.stop))
  }

  /** The loop's variables after it has consumed `s`. */
  function Scan(s: seq<Segment>): ScanState {
    if s == [] then Start else Step(Scan(s[..|s| - 1]), s[|s| - 1])
  }

  /**
    The function's result: the empty array throws, a first segment without a (truthy)
    speaker returns the input itself, otherwise the scan's pushes plus the final segment.
  */
  function Merged(segments: seq<Segment>): (r: Result<seq<Segment>, TranscriptError>)
    ensures r.Failure? <==> segments == []
    ensures r.Failure? ==> r.error == NoFirstSegment
    ensures segments != [] && !HasSpeaker(segments[0].speaker) ==> r == Success(segments)
  {
    if segments == [] then Failure(NoFirstSegment)
    else if !HasSpeaker(segments[0].speaker) then Success(segments)
    else
      var st := Scan(segments);
      Success(st.out + [st.acc])
  }

  /** mergeSpeakerSegments as the source runs it: one pass with a push at each speaker change. */
  method MergeSpeakerSegments(segments: seq<Segment>) returns (r: Result<seq<Segment>, TranscriptError>)
    ensures r == Merged(segments)
  {
    if segments == [] {
      return Failure(NoFirstSegment);
    }
    if !HasSpeaker(segments[0].speaker) {
      return Success(segments);
    }
    var currentSpeaker: Option<string> := None;
    var newSegments: seq<Segment> := [];
    var currentSegment := Segment(0, 0, "", Some(""));
    for i := 0 to |segments|
      invariant Scan(segments[..i]) == ScanState(newSegments, currentSpeaker, currentSegment)
    {
      var segment := segments[i];
      if !HasSpeaker(currentSpeaker) || segment.speaker != currentSpeaker {
        if currentSpeaker.Some? {
          newSegments := newSegments + [currentSegment];
        }
        currentSegment := segment;
      } else {
        currentSegment := currentSegment.(text := currentSegment.text + segment.text, stop := segment.stop);
      }
      currentSpeaker := segment.speaker;
      assert segments[..i + 1][..i] == segments[..i];
    }
    assert segments[..|segments|] == segments;
    return Success(newSegments + [currentSegment]);
  }

  // ---------------------------------------------------------------- the reference: maximal runs

  predicate AllSpeakersSet(s: seq<Segment>) {
    forall i :: 0 <= i < |s| ==> HasSpeaker(s[i].speaker)
  }

  /** The texts of `s`, concatenated in order with no separator. */
  function Texts(s: seq<Segment>): string {
    if s == [] then "" else Texts(s[..|s| - 1]) + s[|s| - 1].text
  }

  /** The length of the maximal prefix of `s` whose speaker is `s[0]`'s. */
  function RunLength(s: seq<Segment>): (k: nat)
    requires s != []
    ensures 1 <= k <= |s|
    ensures forall i :: 0 <= i < k ==> s[i].speaker == s[0].speaker
    ensures k < |s| ==> s[k].speaker != s[0].speaker
  {
    if |s| == 1 || s[1].speaker != s[0].speaker then 1 else 1 + RunLength(s[1..])
  }

  /** A run as one segment: its first start, its last stop, its texts joined, its speaker. */
  function Collapse(run: seq<Segment>): Segment
    requires run != []
  {
    Segment(run[0].start, run[|run| - 1].stop, Texts(run), run[0].speaker)
  }

  /** One segment per maximal run of equal speakers, in order. */
  function Runs(s: seq<Segment>): (r: seq<Segment>)
    ensures |r| <= |s|
    ensures s != [] ==> r != [] && r[0] == Collapse(s[..RunLength(s)])
    decreases |s|
  {
    if s == [] then [] else
      var k := RunLength(s);
      [Collapse(s[..k])] + Runs(s[k..])
  }

  /** The segment a run becomes when `x` joins it: its text appended, its stop moved to x's. */
  function Extend(acc: Segment, x: Segment): Segment {
    acc.(text := acc.text + x.text, stop := x.stop)
  }

  lemma TextsSnoc(p: seq<Segment>, x: Segment)
    ensures Texts(p + [x]) == Texts(p) + x.text
  {
    assert (p + [x])[..|p|] == p;
  }

  /** Concatenating texts distributes over concatenation of segment lists. */
  lemma {:induction false} TextsAppend(a: seq<Segment>, b: seq<Segment>)
    ensures Texts(a + b) == Texts(a) + Texts(b)
    decreases |b|
  {
    if b == [] {
      assert a + b == a;
    } else {
      var b' := b[..|b| - 1];
      assert a + b == (a + b') + [b[|b| - 1]];
      TextsSnoc(a + b', b[|b| - 1]);
      TextsAppend(a, b');
      TextsSnoc(b', b[|b| - 1]);
      assert b' + [b[|b| - 1]] == b;
    }
  }

  /** How the first run's length changes when a segment is appended at the end. */
  lemma {:induction false} RunLengthSnoc(p: seq<Segment>, x: Segment)
    requires p != []
    ensures RunLength(p + [x])
      == if RunLength(p) < |p| then RunLength(p)
         else if x.speaker == p[0].speaker then |p| + 1
         else |p|
  {
    var q := p + [x];
    if |p| == 1 {
      assert q == [p[0], x];
      assert q[1..] == [x];
    } else if p[1].speaker != p[0].speaker {
      assert q[1] == p[1];
    } else {
      assert q[1..] == p[1..] + [x];
      RunLengthSnoc(p[1..], x);
    }
  }

  lemma CollapseSingle(x: Segment)
    ensures Collapse([x]) == x
  {
    assert [x][..0] == [];
    assert Texts([x]) == Texts([]) + x.text;
    assert Texts([]) == "";
    assert "" + x.text == x.text;
  }

  lemma CollapseSnoc(p: seq<Segment>, x: Segment)
    requires p != []
    ensures Collapse(p + [x]) == Extend(Collapse(p), x)
  {
    TextsSnoc(p, x);
  }

  /** Runs of a list that is one run. */
  lemma RunsWhole(s: seq<Segment>)
    requires s != [] && RunLength(s) == |s|
    ensures Runs(s) == [Collapse(s)]
  {
    assert s[..|s|] == s;
    assert s[|s|..] == [];
  }

  /**
    The runs `r` after one more segment `x`, the last segment so far having speaker `last`:
    the last run grows when the speaker repeats, otherwise `x` opens a run of its own.
  */
  function Absorb(r: seq<Segment>, last: Option<string>, x: Segment): seq<Segment>
    requires r != []
  {
    if x.speaker == last then r[..|r| - 1] + [Extend(r[|r| - 1], x)] else r + [x]
  }

  lemma ConsAbsorb(c: Segment, r: seq<Segment>, last: Option<string>, x: Segment)
    requires r != []
    ensures Absorb([c] + r, last, x) == [c] + Absorb(r, last, x)
  {
    if x.speaker == last {
      assert ([c] + r)[..|r|] == [c] + r[..|r| - 1];
    }
  }

  /**
    Appending a segment either extends the last run (same speaker as the last segment) or
    opens a new run of its own.
  */
  lemma {:induction false} RunsSnoc(p: seq<Segment>, x: Segment)
    requires p != []
    ensures Runs(p + [x]) == Absorb(Runs(p), p[|p| - 1].speaker, x)
    decreases |p|, 1
  {
    RunLengthSnoc(p, x);
    if RunLength(p) < |p| {
      RunsSnocLater(p, x);
    } else {
      RunsSnocFirst(p, x);
    }
  }

  /** RunsSnoc when `p` is more than one run: the first run is untouched. */
  lemma {:induction false} RunsSnocLater(p: seq<Segment>, x: Segment)
    requires p != [] && RunLength(p) < |p|
    ensures Runs(p + [x]) == Absorb(Runs(p), p[|p| - 1].speaker, x)
    decreases |p|, 0
  {
    var q := p + [x];
    var k := RunLength(p);
    var rest := p[k..];
    var c := Collapse(p[..k]);
    assert Runs(q) == [c] + Runs(rest + [x]) by {
      RunLengthSnoc(p, x);
      assert q[..k] == p[..k];
      assert q[k..] == rest + [x];
    }
    assert Runs(p) == [c] + Runs(rest);
    assert rest[|rest| - 1] == p[|p| - 1];
    RunsSnoc(rest, x);
    ConsAbsorb(c, Runs(rest), p[|p| - 1].speaker, x);
  }

  /** RunsSnoc when `p` is a single run. */
  lemma RunsSnocFirst(p: seq<Segment>, x: Segment)
    requires p != [] && RunLength(p) == |p|
    ensures Runs(p + [x]) == Absorb(Runs(p), p[|p| - 1].speaker, x)
  {
    var q := p + [x];
    RunLengthSnoc(p, x);
    RunsWhole(p);
    if x.speaker == p[0].speaker {
      RunsWhole(q);
      CollapseSnoc(p, x);
    } else {
      assert q[..|p|] == p;
      assert q[|p|..] == [x];
      assert Runs([x]) == [Collapse([x])] by {
        RunsWhole([x]);
      }
      CollapseSingle(x);
    }
  }

  /**
    When every speaker is non-empty, the loop's state after the segments `p` holds exactly the
    runs of those segments: the pushed ones plus the one being accumulated.
  */
  lemma {:induction false} ScanIsRuns(p: seq<Segment>)
    requires p != [] && AllSpeakersSet(p)
    ensures Scan(p).out + [Scan(p).acc] == Runs(p)
    ensures Scan(p).current == p[|p| - 1].speaker
    decreases |p|
  {
    if |p| == 1 {
      assert p == [p[0]];
      ScanFirst(p[0]);
    } else {
      var prev := p[..|p| - 1];
      var x := p[|p| - 1];
      assert p == prev + [x];
      assert AllSpeakersSet(prev) by {
        forall i | 0 <= i < |prev| ensures HasSpeaker(prev[i].speaker) {
          assert prev[i] == p[i];
        }
      }
      ScanIsRuns(prev);
      assert HasSpeaker(Scan(prev).current) by {
        assert prev[|prev| - 1] == p[|p| - 2];
      }
      StepAbsorbs(Scan(prev), x);
      RunsSnoc(prev, x);
    }
  }

  lemma ScanFirst(x: Segment)
    ensures Scan([x]) == ScanState([], x.speaker, x)
    ensures Runs([x]) == [x]
  {
    assert [x][..0] == [];
    RunsWhole([x]);
    CollapseSingle(x);
  }

  /** One loop iteration past a labelled segment absorbs the new segment into the runs. */
  lemma StepAbsorbs(st: ScanState, x: Segment)
    requires HasSpeaker(st.current)
    ensures Step(st, x).out + [Step(st, x).acc] == Absorb(st.out + [st.acc], st.current, x)
    ensures Step(st, x).current == x.speaker
  {
    var r := st.out + [st.acc];
    if x.speaker == st.current {
      assert r[..|r| - 1] == st.out;
    }
  }

  /** With every speaker non-empty, the source's merge computes exactly the maximal runs. */
  lemma MergedIsRuns(s: seq<Segment>)
    requires s != [] && AllSpeakersSet(s)
    ensures Merged(s) == Success(Runs(s))
  {
    ScanIsRuns(s);
  }

  /** The loop only ever keeps starts and stops of the input, so it keeps them non-negative. */
  lemma {:induction false} ScanTimed(p: seq<Segment>)
    requires p != [] && Timed(p)
    ensures Timed(Scan(p).out + [Scan(p).acc])
    decreases |p|
  {
    var prev := p[..|p| - 1];
    var x := p[|p| - 1];
    assert p == prev + [x];
    TimedSnoc(prev, x);
    if prev == [] {
      assert Scan(p) == ScanState([], x.speaker, x);
      TimedSnoc([], x);
    } else {
      ScanTimed(prev);
      var st := Scan(prev);
      TimedSnoc(st.out, st.acc);
      var st' := Step(st, x);
      assert Timed(st'.out) && st'.acc.start >= 0 && st'.acc.stop >= 0 by {
        if st.current.Some? {
          TimedSnoc(st.out, st.acc);
        }
      }
      TimedSnoc(st'.out, st'.acc);
    }
  }

  /** Merging never produces a negative time from non-negative ones. */
  lemma MergedTimed(s: seq<Segment>)
    requires s != [] && Timed(s)
    ensures Timed(Merged(s).value)
  {
    if HasSpeaker(s[0].speaker) {
      ScanTimed(s);
    }
  }

  // ---------------------------------------------------------------- what the runs are

  /** Consecutive output segments have different speakers: every run is maximal. */
  lemma {:induction false} RunsAdjacentDistinct(s: seq<Segment>)
    ensures forall i :: 0 <= i < |Runs(s)| - 1 ==> Runs(s)[i].speaker != Runs(s)[i + 1].speaker
    decreases |s|
  {
    if s != [] {
      var k := RunLength(s);
      var rest := s[k..];
      RunsAdjacentDistinct(rest);
      var r := Runs(s);
      assert r == [Collapse(s[..k])] + Runs(rest);
      if rest != [] {
        assert Runs(rest)[0].speaker == rest[0].speaker;
      }
      forall i | 0 <= i < |r| - 1
        ensures r[i].speaker != r[i + 1].speaker
      {
        if i > 0 {
          assert r[i] == Runs(rest)[i - 1] && r[i + 1] == Runs(rest)[i];
        }
      }
    }
  }

  /** Runs unfolded once: the collapsed first run, then the runs of what follows it. */
  lemma RunsCons(s: seq<Segment>)
    requires s != []
    ensures Runs(s) == [Collapse(s[..RunLength(s)])] + Runs(s[RunLength(s)..])
  {
  }

  lemma TextsSingle(c: Segment)
    ensures Texts([c]) == c.text
  {
    TextsSnoc([], c);
    assert [] + [c] == [c];
    assert Texts([]) == "";
  }

  lemma TextsSplit(s: seq<Segment>, k: nat)
    requires k <= |s|
    ensures Texts(s) == Texts(s[..k]) + Texts(s[k..])
  {
    var a, b := s[..k], s[k..];
    assert a + b == s;
    TextsAppend(a, b);
  }

  /** No text is lost or reordered: the outputs' texts concatenate to the inputs'. */
  lemma {:induction false} RunsKeepTexts(s: seq<Segment>)
    ensures Texts(Runs(s)) == Texts(s)
    decreases |s|
  {
    if s != [] {
      var k := RunLength(s);
      var c := Collapse(s[..k]);
      var rest := Runs(s[k..]);
      RunsCons(s);
      TextsAppend([c], rest);
      TextsSingle(c);
      assert c.text == Texts(s[..k]);
      RunsKeepTexts(s[k..]);
      TextsSplit(s, k);
    }
  }

  /** The outputs span the inputs: the first starts where the first input starts, the last stops where the last input stops. */
  lemma {:induction false} RunsSpan(s: seq<Segment>)
    requires s != []
    ensures Runs(s)[0].start == s[0].start
    ensures Runs(s)[|Runs(s)| - 1].stop == s[|s| - 1].stop
    decreases |s|
  {
    var k := RunLength(s);
    var c := Collapse(s[..k]);
    var tail := s[k..];
    RunsCons(s);
    assert c.start == s[0].start;
    if tail != [] {
      RunsSpan(tail);
      var rest := Runs(tail);
      assert Runs(s)[|Runs(s)| - 1] == rest[|rest| - 1];
      assert tail[|tail| - 1] == s[|s| - 1];
    } else {
      assert Runs(tail) == [];
      assert k == |s|;
      assert c.stop == s[|s| - 1].stop;
    }
  }

  /** One speaker throughout: the output is that single segment (first start, last stop, all texts). */
  lemma SingleSpeaker(s: seq<Segment>)
    requires s != []
    requires forall i :: 0 <= i < |s| ==> s[i].speaker == s[0].speaker
    ensures Runs(s) == [Segment(s[0].start, s[|s| - 1].stop, Texts(s), s[0].speaker)]
  {
    var k := RunLength(s);
    assert k == |s|;
    RunsWhole(s);
  }

  /** A list whose neighbours all differ in speaker is its own run list. */
  lemma {:induction false} RunsOfDistinct(t: seq<Segment>)
    requires forall i :: 0 <= i < |t| - 1 ==> t[i].speaker != t[i + 1].speaker
    ensures Runs(t) == t
    decreases |t|
  {
    if t != [] {
      var rest := t[1..];
      assert RunLength(t) == 1 by {
        if |t| > 1 {
          assert t[0].speaker != t[1].speaker;
        }
      }
      RunsCons(t);
      assert t[..1] == [t[0]];
      CollapseSingle(t[0]);
      assert forall i :: 0 <= i < |rest| - 1 ==> rest[i].speaker != rest[i + 1].speaker by {
        forall i | 0 <= i < |rest| - 1 ensures rest[i].speaker != rest[i + 1].speaker {
          assert rest[i] == t[i + 1] && rest[i + 1] == t[i + 2];
        }
      }
      RunsOfDistinct(rest);
      assert t == [t[0]] + rest;
    }
  }

  /** Every output speaker is the speaker of some input segment. */
  lemma {:induction false} RunsSpeakers(s: seq<Segment>)
    ensures forall i :: 0 <= i < |Runs(s)| ==> exists j :: 0 <= j < |s| && Runs(s)[i].speaker == s[j].speaker
    decreases |s|
  {
    if s != [] {
      var k := RunLength(s);
      var rest := s[k..];
      RunsSpeakers(rest);
      var r := Runs(s);
      assert r == [Collapse(s[..k])] + Runs(rest);
      forall i | 0 <= i < |r|
        ensures exists j :: 0 <= j < |s| && r[i].speaker == s[j].speaker
      {
        if i == 0 {
          assert r[0].speaker == s[0].speaker;
        } else {
          assert r[i] == Runs(rest)[i - 1];
          var j :| 0 <= j < |rest| && Runs(rest)[i - 1].speaker == rest[j].speaker;
          assert rest[j] == s[k + j];
        }
      }
      assert forall i :: 0 <= i < |r| ==> exists j :: 0 <= j < |s| && r[i].speaker == s[j].speaker;
    } else {
      assert Runs(s) == [];
    }
  }

  /** Merging is idempotent when every speaker is non-empty: a merged list merges to itself. */
  lemma MergeIdempotent(s: seq<Segment>)
    requires s != [] && AllSpeakersSet(s)
    ensures Merged(s).Success? && Merged(Merged(s).value) == Merged(s)
  {
    MergedIsRuns(s);
    var r := Runs(s);
    RunsSpeakers(s);
    assert AllSpeakersSet(r) by {
      forall i | 0 <= i < |r| ensures HasSpeaker(r[i].speaker) {
        var j :| 0 <= j < |s| && r[i].speaker == s[j].speaker;
      }
    }
    MergedIsRuns(r);
    RunsAdjacentDistinct(s);
    RunsOfDistinct(r);
  }

  // ---------------------------------------------------------------- the source's quirks

  /**
    A segment without a speaker that follows a labelled one is lost when another segment
    comes after it: the push of the accumulated segment is guarded by `currentSpeaker !== undefined`.
  */
  lemma UnlabelledSegmentLost(a: Segment, b: Segment, c: Segment)
    requires HasSpeaker(a.speaker) && b.speaker == None
    ensures Merged([a, b, c]) == Success([a, c])
  {
    var s := [a, b, c];
    assert s[..2] == [a, b] && [a, b][..1] == [a] && [a][..0] == [];
    assert Scan([a]) == ScanState([], a.speaker, a);
    assert Scan([a, b]) == ScanState([a], None, b);
    assert Scan(s) == ScanState([a], c.speaker, c);
    assert [a] + [c] == [a, c];
  }

  /** An empty speaker label opens a run of its own every time: two such neighbours are not joined. */
  lemma EmptySpeakerNotJoined(a: Segment, b: Segment, c: Segment)
    requires HasSpeaker(a.speaker) && b.speaker == Some("") && c.speaker == Some("")
    ensures Merged([a, b, c]) == Success([a, b, c])
  {
    var s := [a, b, c];
    assert s[..2] == [a, b] && [a, b][..1] == [a] && [a][..0] == [];
    assert Scan([a]) == ScanState([], a.speaker, a);
    assert Scan([a, b]) == ScanState([a], Some(""), b);
    assert Scan(s) == ScanState([a, b], Some(""), c);
    assert [a, b] + [c] == [a, b, c];
  }
}
