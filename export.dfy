/**
  asSrt, asVtt and asText of desktop/src/lib/transcript.ts. Each merges the segments by
  speaker and then reduces them, left to right, into one string; a negative timestamp makes
  formatTimestamp throw, which aborts the reduce. `formatSpeaker` (desktop/src/lib/utils.ts)
  is a parameter: the model only relies on it being a function of speaker and prefix.
*/
module TranscriptExport {
  import opened Wrappers
  import opened Strings
  import opened Segments
  import opened Timestamp
  import opened SpeakerMerge

  /** The three layouts the transcript can be written in. */
  datatype Layout = Srt | Vtt | Plain

  /** formatSpeaker(speaker, prefix). */
  type SpeakerFormatter = (string, string) -> string

  /** The `speakerPrefix` asSrt, asVtt and asText use when the caller gives none. */
  const DefaultSpeakerPrefix: string := "Speaker"

  /** `segment.speaker ? formatSpeaker(segment.speaker, speakerPrefix) : ''` */
  function SpeakerLabel(speaker: Option<string>, prefix: string, formatSpeaker: SpeakerFormatter): string {
    if HasSpeaker(speaker) then formatSpeaker(speaker.value, prefix) else ""
  }

  /** The subtitle text of a cue: trimmed, and only its first `-->` shortened to `->`. */
  function Payload(text: string): string {
    ReplaceFirst(Trim(text), "-->", "->")
  }

  /**
    A subtitle cue: `head`, then the time line `start --> stop`, then the speaker and the
    payload on one line. SRT's head is the cue number and a newline, WebVTT's is empty.
  */
  function SubtitleBlock(head: string, start: string, stop: string, speakerText: string, text: string): string {
    head + start + " --> " + stop + "\n" + speakerText + Payload(text) + "\n"
  }

  /** A text paragraph: the speaker on a line of its own and a blank line after, when there is a speaker. */
  function PlainBlock(speaker: Option<string>, speakerText: string, text: string): string {
    (if HasSpeaker(speaker) then speakerText + "\n" else "")
    + Trim(text) + "\n"
    + (if HasSpeaker(speaker) then "\n" else "")
  }

  /** What the reduce callback returns for the segment at index `i`, throws included. */
  function Cue(layout: Layout, i: nat, segment: Segment, prefix: string, formatSpeaker: SpeakerFormatter)
    : (r: Result<string, TranscriptError>)
    ensures r.Failure? <==> layout != Plain && (segment.start < 0 || segment.stop < 0)
    ensures r.Failure? ==> r.error == NegativeTimestamp
  {
    var speakerText := SpeakerLabel(segment.speaker, prefix, formatSpeaker);
    (match layout
    case Srt =>
      var start :- FormatTimestamp(segment.start, true, ",", true);
      var stop :- FormatTimestamp(segment.stop, true, ",", true);
      Success((if i > 0 then "\n" else "") + SubtitleBlock(NatToString(i + 1) + "\n", start, stop, speakerText, segment.text))
    case Vtt =>
      var start :- FormatTimestamp(segment.start, false, ".", true);
      var stop :- FormatTimestamp(segment.stop, false, ".", true);
      Success(SubtitleBlock("", start, stop, speakerText, segment.text))
    case Plain =>
      Success(PlainBlock(segment.speaker, speakerText, segment.text)))
  }

  /**
    `segments.reduce(callback, '')`: the callback's strings appended left to right. The
    callback is given the index as well; the first one that throws aborts the whole reduce.
  */
  function ReduceCues(segments: seq<Segment>, callback: (nat, Segment) -> Result<string, TranscriptError>)
    : (r: Result<string, TranscriptError>)
    ensures r.Failure? <==> exists i :: 0 <= i < |segments| && callback(i, segments[i]).Failure?
  {
    if segments == [] then Success("")
    else
      var n := |segments| - 1;
      assert forall i :: 0 <= i < n ==> segments[..n][i] == segments[i];
      var acc :- ReduceCues(segments[..n], callback);
      var cue :- callback(n, segments[n]);
      Success(acc + cue)
  }

  /** The callback asSrt, asVtt or asText hands to reduce. */
  function Callback(layout: Layout, prefix: string, formatSpeaker: SpeakerFormatter): (nat, Segment) -> Result<string, TranscriptError> {
    (i: nat, segment: Segment) => Cue(layout, i, segment, prefix, formatSpeaker)
  }

  /** The reduce throws exactly when a subtitle layout meets a negative timestamp. */
  lemma ReduceFails(segments: seq<Segment>, layout: Layout, prefix: string, formatSpeaker: SpeakerFormatter)
    ensures ReduceCues(segments, Callback(layout, prefix, formatSpeaker)).Failure? <==> layout != Plain && !Timed(segments)
  {
    var callback := Callback(layout, prefix, formatSpeaker);
    if layout != Plain && !Timed(segments) {
      var i :| 0 <= i < |segments| && !(segments[i].start >= 0 && segments[i].stop >= 0);
      assert callback(i, segments[i]).Failure?;
    }
  }

  /** What the three exporters share: merge by speaker, then reduce with the layout's callback. */
  function Emit(layout: Layout, segments: seq<Segment>, prefix: string, formatSpeaker: SpeakerFormatter)
    : (r: Result<string, TranscriptError>)
    ensures r.Failure? <==> segments == [] || (layout != Plain && !Timed(Merged(segments).value))
    ensures r.Failure? && segments == [] ==> r.error == NoFirstSegment
  {
    var merged :- Merged(segments);
    ReduceFails(merged, layout, prefix, formatSpeaker);
    ReduceCues(merged, Callback(layout, prefix, formatSpeaker))
  }

  /** asSrt(segments, speakerPrefix): throws on an empty list, and on a negative time that survives the merge. */
  function AsSrt(segments: seq<Segment>, prefix: string, formatSpeaker: SpeakerFormatter)
    : (r: Result<string, TranscriptError>)
    ensures r.Failure? <==> segments == [] || !Timed(Merged(segments).value)
    ensures segments != [] && Timed(segments) ==> r.Success?
  {
    if segments != [] && Timed(segments) then MergedTimed(segments); Emit(Srt, segments, prefix, formatSpeaker)
    else Emit(Srt, segments, prefix, formatSpeaker)
  }

  /** asVtt(segments, speakerPrefix): fails exactly as asSrt does. */
  function AsVtt(segments: seq<Segment>, prefix: string, formatSpeaker: SpeakerFormatter)
    : (r: Result<string, TranscriptError>)
    ensures r.Failure? <==> segments == [] || !Timed(Merged(segments).value)
    ensures segments != [] && Timed(segments) ==> r.Success?
  {
    if segments != [] && Timed(segments) then MergedTimed(segments); Emit(Vtt, segments, prefix, formatSpeaker)
    else Emit(Vtt, segments, prefix, formatSpeaker)
  }

  /** asText(segments, speakerPrefix): no timestamps, so only the empty list throws. */
  function AsText(segments: seq<Segment>, prefix: string, formatSpeaker: SpeakerFormatter)
    : (r: Result<string, TranscriptError>)
    ensures r.Failure? <==> segments == []
  {
    Emit(Plain, segments, prefix, formatSpeaker)
  }

  // ---------------------------------------------------------------- the documents, block by block

  /** One segment's block, without the separator that precedes every block but the first. */
  function Block(layout: Layout, n: nat, segment: Segment, prefix: string, formatSpeaker: SpeakerFormatter): string
    requires layout == Plain || (segment.start >= 0 && segment.stop >= 0)
  {
    var speakerText := SpeakerLabel(segment.speaker, prefix, formatSpeaker);
    (match layout
    case Srt =>
      SubtitleBlock(NatToString(n) + "\n", TimestampText(segment.start, true, ",", true),
        TimestampText(segment.stop, true, ",", true), speakerText, segment.text)
    case Vtt =>
      SubtitleBlock("", TimestampText(segment.start, false, ".", true),
        TimestampText(segment.stop, false, ".", true), speakerText, segment.text)
    case Plain =>
      PlainBlock(segment.speaker, speakerText, segment.text))
  }

  /** What goes between two blocks: SRT separates cues by a blank line, the others by nothing. */
  function Separator(layout: Layout): string {
    if layout == Srt then "\n" else ""
  }

  /** The blocks of `segments`, numbered from `n`. */
  function Blocks(layout: Layout, segments: seq<Segment>, n: nat, prefix: string, formatSpeaker: SpeakerFormatter)
    : seq<string>
    requires layout == Plain || Timed(segments)
  {
    seq(|segments|, i requires 0 <= i < |segments| => Block(layout, n + i, segments[i], prefix, formatSpeaker))
  }

  /** `xs` joined with `sep` between neighbours. */
  function JoinWith(sep: string, xs: seq<string>): string
    decreases |xs|
  {
    if xs == [] then ""
    else if |xs| == 1 then xs[0]
    else xs[0] + sep + JoinWith(sep, xs[1..])
  }

  /** The callback's value for a segment is its block, preceded by the separator unless it is the first. */
  lemma CueIsBlock(layout: Layout, i: nat, segment: Segment, prefix: string, formatSpeaker: SpeakerFormatter)
    ensures Cue(layout, i, segment, prefix, formatSpeaker)
      == if layout != Plain && (segment.start < 0 || segment.stop < 0) then Failure(NegativeTimestamp)
         else Success((if i > 0 then Separator(layout) else "") + Block(layout, i + 1, segment, prefix, formatSpeaker))
  {
    if layout == Plain || (segment.start >= 0 && segment.stop >= 0) {
      match layout
      case Srt => SrtCue(i, segment, prefix, formatSpeaker);
      case Vtt => VttCue(i, segment, prefix, formatSpeaker);
      case Plain => PlainCue(i, segment, prefix, formatSpeaker);
    }
  }

  lemma SrtCue(i: nat, segment: Segment, prefix: string, formatSpeaker: SpeakerFormatter)
    requires segment.start >= 0 && segment.stop >= 0
    ensures Cue(Srt, i, segment, prefix, formatSpeaker)
      == Success((if i > 0 then Separator(Srt) else "") + Block(Srt, i + 1, segment, prefix, formatSpeaker))
  {
    assert FormatTimestamp(segment.start, true, ",", true) == Success(TimestampText(segment.start, true, ",", true));
    assert FormatTimestamp(segment.stop, true, ",", true) == Success(TimestampText(segment.stop, true, ",", true));
    assert Separator(Srt) == "\n";
  }

  lemma VttCue(i: nat, segment: Segment, prefix: string, formatSpeaker: SpeakerFormatter)
    requires segment.start >= 0 && segment.stop >= 0
    ensures Cue(Vtt, i, segment, prefix, formatSpeaker)
      == Success((if i > 0 then Separator(Vtt) else "") + Block(Vtt, i + 1, segment, prefix, formatSpeaker))
  {
    assert FormatTimestamp(segment.start, false, ".", true) == Success(TimestampText(segment.start, false, ".", true));
    assert FormatTimestamp(segment.stop, false, ".", true) == Success(TimestampText(segment.stop, false, ".", true));
    assert Separator(Vtt) == "";
    EmptyFront(Block(Vtt, i + 1, segment, prefix, formatSpeaker));
  }

  lemma PlainCue(i: nat, segment: Segment, prefix: string, formatSpeaker: SpeakerFormatter)
    ensures Cue(Plain, i, segment, prefix, formatSpeaker)
      == Success((if i > 0 then Separator(Plain) else "") + Block(Plain, i + 1, segment, prefix, formatSpeaker))
  {
    assert Separator(Plain) == "";
    EmptyFront(Block(Plain, i + 1, segment, prefix, formatSpeaker));
  }

  /** An empty string in front changes nothing. */
  lemma EmptyFront(b: string)
    ensures "" + b == b
  {
  }

  lemma {:induction false} JoinSnoc(sep: string, xs: seq<string>, y: string)
    requires xs != []
    ensures JoinWith(sep, xs + [y]) == JoinWith(sep, xs) + sep + y
    decreases |xs|
  {
    if |xs| == 1 {
      assert (xs + [y])[1..] == [y];
    } else {
      assert (xs + [y])[1..] == xs[1..] + [y];
      JoinSnoc(sep, xs[1..], y);
    }
  }

  /**
    Reduce with a callback that yields, for the segment at index `i`, the block `blocks[i]`
    preceded by `sep` unless it is the first: the blocks joined by `sep`.
  */
  lemma {:induction false} ReduceJoins(segments: seq<Segment>, callback: (nat, Segment) -> Result<string, TranscriptError>, sep: string, blocks: seq<string>)
    requires |blocks| == |segments|
    requires forall i :: 0 <= i < |segments| ==> callback(i, segments[i]) == Success((if i > 0 then sep else "") + blocks[i])
    ensures ReduceCues(segments, callback) == Success(JoinWith(sep, blocks))
    decreases |segments|
  {
    if segments != [] {
      var n := |segments| - 1;
      assert forall i :: 0 <= i < n ==> segments[..n][i] == segments[i];
      ReduceJoins(segments[..n], callback, sep, blocks[..n]);
      assert blocks == blocks[..n] + [blocks[n]];
      if n > 0 {
        JoinSnoc(sep, blocks[..n], blocks[n]);
        assert JoinWith(sep, blocks[..n]) + (sep + blocks[n]) == JoinWith(sep, blocks[..n]) + sep + blocks[n];
      } else {
        assert "" + blocks[0] == blocks[0];
      }
    }
  }

  /** Every callback value is its block, behind the separator unless it is the first. */
  lemma CuesAreBlocks(layout: Layout, segments: seq<Segment>, prefix: string, formatSpeaker: SpeakerFormatter)
    requires layout == Plain || Timed(segments)
    ensures forall i :: 0 <= i < |segments| ==>
      Callback(layout, prefix, formatSpeaker)(i, segments[i])
        == Success((if i > 0 then Separator(layout) else "") + Blocks(layout, segments, 1, prefix, formatSpeaker)[i])
  {
    forall i | 0 <= i < |segments|
      ensures Callback(layout, prefix, formatSpeaker)(i, segments[i])
        == Success((if i > 0 then Separator(layout) else "") + Blocks(layout, segments, 1, prefix, formatSpeaker)[i])
    {
      CueIsBlock(layout, i, segments[i], prefix, formatSpeaker);
      assert Callback(layout, prefix, formatSpeaker)(i, segments[i]) == Cue(layout, i, segments[i], prefix, formatSpeaker);
      assert Blocks(layout, segments, 1, prefix, formatSpeaker)[i] == Block(layout, i + 1, segments[i], prefix, formatSpeaker);
    }
  }

  /**
    The documents block by block: SRT cues separated by one blank line, WebVTT cues and
    text paragraphs simply concatenated, with no header before them.
  */
  lemma ReduceIsJoin(layout: Layout, segments: seq<Segment>, prefix: string, formatSpeaker: SpeakerFormatter)
    requires layout == Plain || Timed(segments)
    ensures ReduceCues(segments, Callback(layout, prefix, formatSpeaker))
      == Success(JoinWith(Separator(layout), Blocks(layout, segments, 1, prefix, formatSpeaker)))
  {
    CuesAreBlocks(layout, segments, prefix, formatSpeaker);
    ReduceJoins(segments, Callback(layout, prefix, formatSpeaker), Separator(layout), Blocks(layout, segments, 1, prefix, formatSpeaker));
  }

  lemma JoinStartsWith(sep: string, xs: seq<string>)
    requires xs != []
    ensures StartsWith(JoinWith(sep, xs), xs[0])
  {
    if |xs| > 1 {
      assert JoinWith(sep, xs) == xs[0] + (sep + JoinWith(sep, xs[1..]));
    }
  }

  /** A string starts with any prefix of a string it extends. */
  lemma StartsWithExtended(s: string, p: string, q: string)
    requires StartsWith(s, p)
    ensures StartsWith(s + q, p)
  {
    assert (s + q)[..|p|] == s[..|p|];
  }

  lemma SubtitleBlockStartsWith(head: string, start: string, stop: string, speakerText: string, text: string)
    ensures StartsWith(SubtitleBlock(head, start, stop, speakerText, text), head + start)
  {
    var a := head + start;
    var payload := Payload(text);
    assert StartsWith(a, a) by {
      assert a[..|a|] == a;
    }
    StartsWithExtended(a, a, " --> ");
    StartsWithExtended(a + " --> ", a, stop);
    StartsWithExtended(a + " --> " + stop, a, "\n");
    StartsWithExtended(a + " --> " + stop + "\n", a, speakerText);
    StartsWithExtended(a + " --> " + stop + "\n" + speakerText, a, payload);
    StartsWithExtended(a + " --> " + stop + "\n" + speakerText + payload, a, "\n");
  }

  /**
    With every speaker non-empty, each document is the blocks of the speaker runs: one cue or
    paragraph per maximal run of the same speaker, numbered from 1 in SRT.
  */
  lemma DocumentOfRuns(layout: Layout, s: seq<Segment>, prefix: string, formatSpeaker: SpeakerFormatter)
    requires s != [] && AllSpeakersSet(s)
    requires layout == Plain || Timed(s)
    ensures layout == Plain || Timed(Runs(s))
    ensures Emit(layout, s, prefix, formatSpeaker)
      == Success(JoinWith(Separator(layout), Blocks(layout, Runs(s), 1, prefix, formatSpeaker)))
  {
    MergedIsRuns(s);
    if layout != Plain {
      MergedTimed(s);
    }
    ReduceIsJoin(layout, Runs(s), prefix, formatSpeaker);
  }

  /** When the first segment has no speaker nothing is merged: one block per input segment. */
  lemma DocumentOfUnlabelled(layout: Layout, s: seq<Segment>, prefix: string, formatSpeaker: SpeakerFormatter)
    requires s != [] && !HasSpeaker(s[0].speaker)
    requires layout == Plain || Timed(s)
    ensures Emit(layout, s, prefix, formatSpeaker)
      == Success(JoinWith(Separator(layout), Blocks(layout, s, 1, prefix, formatSpeaker)))
  {
    ReduceIsJoin(layout, s, prefix, formatSpeaker);
  }

  /** A document that is produced opens with the block of its first (merged) segment. */
  lemma OpensWithFirstBlock(layout: Layout, t: seq<Segment>, prefix: string, formatSpeaker: SpeakerFormatter)
    requires t != [] && (layout == Plain || Timed(t))
    ensures ReduceCues(t, Callback(layout, prefix, formatSpeaker)).Success?
    ensures StartsWith(ReduceCues(t, Callback(layout, prefix, formatSpeaker)).value, Block(layout, 1, t[0], prefix, formatSpeaker))
  {
    ReduceIsJoin(layout, t, prefix, formatSpeaker);
    var blocks := Blocks(layout, t, 1, prefix, formatSpeaker);
    JoinStartsWith(Separator(layout), blocks);
    assert blocks[0] == Block(layout, 1, t[0], prefix, formatSpeaker);
  }

  lemma SrtBlockOpensWithNumber(n: nat, segment: Segment, prefix: string, formatSpeaker: SpeakerFormatter)
    requires segment.start >= 0 && segment.stop >= 0
    ensures StartsWith(Block(Srt, n, segment, prefix, formatSpeaker), NatToString(n) + "\n")
  {
    var head := NatToString(n) + "\n";
    var start := TimestampText(segment.start, true, ",", true);
    SubtitleBlockStartsWith(head, start, TimestampText(segment.stop, true, ",", true),
      SpeakerLabel(segment.speaker, prefix, formatSpeaker), segment.text);
    assert (head + start)[..|head|] == head;
    StartsWithTrans(Block(Srt, n, segment, prefix, formatSpeaker), head + start, head);
  }

  lemma VttBlockOpensWithStart(n: nat, segment: Segment, prefix: string, formatSpeaker: SpeakerFormatter)
    requires segment.start >= 0 && segment.stop >= 0
    ensures StartsWith(Block(Vtt, n, segment, prefix, formatSpeaker), TimestampText(segment.start, false, ".", true))
  {
    var start := TimestampText(segment.start, false, ".", true);
    SubtitleBlockStartsWith("", start, TimestampText(segment.stop, false, ".", true),
      SpeakerLabel(segment.speaker, prefix, formatSpeaker), segment.text);
    assert "" + start == start;
  }

  /** An SRT document opens with cue number 1; the numbering counts merged segments. */
  lemma SrtStartsWithCueOne(s: seq<Segment>, prefix: string, formatSpeaker: SpeakerFormatter)
    requires AsSrt(s, prefix, formatSpeaker).Success?
    ensures StartsWith(AsSrt(s, prefix, formatSpeaker).value, "1\n")
  {
    var merged := SrtIsReduce(s, prefix, formatSpeaker);
    var doc := AsSrt(s, prefix, formatSpeaker).value;
    var block := Block(Srt, 1, merged[0], prefix, formatSpeaker);
    OpensWithFirstBlock(Srt, merged, prefix, formatSpeaker);
    assert StartsWith(doc, block);
    SrtBlockOpensWithNumber(1, merged[0], prefix, formatSpeaker);
    OneText();
    StartsWithTrans(doc, block, "1\n");
  }

  lemma OneText()
    ensures NatToString(1) + "\n" == "1\n"
  {
    assert NatToString(1) == "1";
  }

  /** A produced SRT document is the reduce over the merged segments, all of them timed. */
  lemma SrtIsReduce(s: seq<Segment>, prefix: string, formatSpeaker: SpeakerFormatter) returns (merged: seq<Segment>)
    requires AsSrt(s, prefix, formatSpeaker).Success?
    ensures Merged(s).Success? && merged == Merged(s).value && merged != [] && Timed(merged)
    ensures AsSrt(s, prefix, formatSpeaker) == ReduceCues(merged, Callback(Srt, prefix, formatSpeaker))
  {
    merged := Merged(s).value;
  }

  /** A WebVTT document has no `WEBVTT` header: it opens with the first cue's start time. */
  lemma VttStartsWithTime(s: seq<Segment>, prefix: string, formatSpeaker: SpeakerFormatter)
    requires AsVtt(s, prefix, formatSpeaker).Success?
    ensures Merged(s).Success? && Merged(s).value != [] && Merged(s).value[0].start >= 0
    ensures StartsWith(AsVtt(s, prefix, formatSpeaker).value, TimestampText(Merged(s).value[0].start, false, ".", true))
  {
    var merged := Merged(s).value;
    OpensWithFirstBlock(Vtt, merged, prefix, formatSpeaker);
    VttBlockOpensWithStart(1, merged[0], prefix, formatSpeaker);
    StartsWithTrans(AsVtt(s, prefix, formatSpeaker).value, Block(Vtt, 1, merged[0], prefix, formatSpeaker),
      TimestampText(merged[0].start, false, ".", true));
  }

  // ---------------------------------------------------------------- the arrow replacement

  /** Only the first `-->` of a cue text is shortened: a later one reaches the subtitle file. */
  lemma SecondArrowSurvives(text: string, i: nat, j: nat)
    requires OccursAt(Trim(text), "-->", i) && OccursAt(Trim(text), "-->", j) && i + 3 <= j
    ensures OccursAt(Payload(text), "-->", j - 1)
  {
    var t := Trim(text);
    assert IndexOf(t, "-->").Some?;
    ReplaceFirstKeepsLater(t, "-->", "->", j);
  }

  /** The text `---->`: four dashes and a closing angle bracket. */
  predicate IsDashes(text: string) {
    |text| == 5 && text[0] == '-' && text[1] == '-' && text[2] == '-' && text[3] == '-' && text[4] == '>'
  }

  lemma DashesTrimmed(text: string)
    requires IsDashes(text)
    ensures Trim(text) == text
  {
    assert !IsWhitespace(text[0]) by {
      assert text[0] == '-';
    }
    KeptStart(text);
    assert !IsWhitespace(text[4]) by {
      assert text[4] == '>';
    }
    KeptEnd(text);
  }

  lemma KeptStart(s: string)
    requires s != [] && !IsWhitespace(s[0])
    ensures TrimStart(s) == s
  {
  }

  lemma KeptEnd(s: string)
    requires s != [] && !IsWhitespace(s[|s| - 1])
    ensures TrimEnd(s) == s
  {
  }

  lemma DashesFirstArrow(text: string)
    requires IsDashes(text)
    ensures IndexOf(text, "-->") == Some(2)
  {
    var arrow := "-->";
    assert text[0..3] != arrow by {
      assert text[0..3][2] == '-';
    }
    assert text[1..4] != arrow by {
      assert text[1..4][2] == '-';
    }
    assert text[2..5] == arrow;
    assert FindFrom(text, arrow, 2) == Some(2);
    assert FindFrom(text, arrow, 1) == Some(2);
  }

  lemma DashesShortened(text: string)
    requires IsDashes(text)
    ensures |ReplaceFirst(text, "-->", "->")| == 4
    ensures OccursAt(ReplaceFirst(text, "-->", "->"), "-->", 1)
  {
    DashesFirstArrow(text);
    var r := text[..2] + "->" + text[5..];
    assert r[1..4] == [text[1], '-', '>'];
  }

  /** Shortening the first `-->` can itself produce one: `---->` becomes `--->`. */
  lemma ShorteningRecreatesArrow(text: string)
    requires IsDashes(text)
    ensures |Payload(text)| == 4
    ensures OccursAt(Payload(text), "-->", 1)
  {
    assert Payload(text) == ReplaceFirst(text, "-->", "->") by {
      DashesTrimmed(text);
    }
    DashesShortened(text);
  }
}
