/**
  The transcript data model of desktop/src/lib/transcript.ts: a segment is one timed
  utterance with an optional speaker label; a transcript is the finished job's result.
  Times are integers counting the unit formatTimestamp expects (see module Timestamp).
*/
module Segments {
  import opened Wrappers

  datatype Duration = Duration(secs: nat, nanos: nat)

  datatype Segment = Segment(start: int, stop: int, text: string, speaker: Option<string>)

  datatype Transcript = Transcript(
    processingTime: Option<Duration>,
    segments: seq<Segment>,
    wordSegments: Option<seq<Segment>>)

  /** The two ways the transcript functions throw. */
  datatype TranscriptError =
    | NegativeTimestamp   // formatTimestamp's explicit `throw` on a negative argument
    | NoFirstSegment      // `segments?.[0].speaker` reading a property of `undefined`

  /** JavaScript truthiness of an optional speaker: present and not the empty string. */
  predicate HasSpeaker(speaker: Option<string>) {
    speaker.Some? && speaker.value != ""
  }

  /** Every start and stop is non-negative, so formatTimestamp does not throw on any of them. */
  predicate Timed(s: seq<Segment>) {
    forall i :: 0 <= i < |s| ==> s[i].start >= 0 && s[i].stop >= 0
  }

  lemma TimedSnoc(s: seq<Segment>, x: Segment)
    ensures Timed(s + [x]) <==> Timed(s) && x.start >= 0 && x.stop >= 0
  {
    assert forall i :: 0 <= i < |s| ==> (s + [x])[i] == s[i];
    assert (s + [x])[|s|] == x;
  }
}
