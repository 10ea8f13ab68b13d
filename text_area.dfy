/**
  desktop/src/components/TextArea.tsx: the transcript view. It keeps the chosen format in
  local storage and the rendered text in its state, re-renders the text whenever the format
  or the segments change, toggles the text direction and saves the text to a file.
  The save dialog and the file write are parameters: the path the user chose, or none.
*/
module TextArea {
  import opened Wrappers
  import opened Segments
  import opened SpeakerMerge
  import opened TranscriptExport
  import opened FormatSelect

  /** The stored format. The select's value is cast to TextFormat unchecked, so any string can be stored. */
  function StoredFormat(stored: Option<string>): (r: string)
    ensures stored.None? ==> r == Name(Normal)
    ensures stored.Some? ==> r == stored.value
  {
    stored.GetOr("normal")
  }

  /** The layout each format renders with. */
  function LayoutOf(f: TextFormat): Layout {
    match f
    case Normal => Plain
    case Srt => TranscriptExport.Srt
    case Vtt => TranscriptExport.Vtt
  }

  /**
    The effect that fills the text area: no segments give the empty text; otherwise `vtt`
    and `srt` pick their emitters and every other string, unknown ones included, picks asText.
    The emitters run with their default speaker prefix.
  */
  function Rendered(format: string, segments: Option<seq<Segment>>, formatSpeaker: SpeakerFormatter)
    : (r: Result<string, TranscriptError>)
    ensures segments.None? ==> r == Success("")
  {
    match segments
    case None => Success("")
    case Some(s) =>
      if format == "vtt" then AsVtt(s, DefaultSpeakerPrefix, formatSpeaker)
      else if format == "srt" then AsSrt(s, DefaultSpeakerPrefix, formatSpeaker)
      else AsText(s, DefaultSpeakerPrefix, formatSpeaker)
  }

  /** Each format renders with its own layout. */
  lemma RenderedByFormat(f: TextFormat, s: seq<Segment>, formatSpeaker: SpeakerFormatter)
    ensures Rendered(Name(f), Some(s), formatSpeaker) == Emit(LayoutOf(f), s, DefaultSpeakerPrefix, formatSpeaker)
  {
  }

  /** A string that is not a format, such as a stale stored value, renders as plain text. */
  lemma UnknownFormatIsText(format: string, s: seq<Segment>, formatSpeaker: SpeakerFormatter)
    requires Parse(format).None?
    ensures Rendered(format, Some(s), formatSpeaker) == Rendered(Name(Normal), Some(s), formatSpeaker)
  {
  }

  /**
    When rendering throws: an empty list of segments is truthy and reaches the merge, which
    throws for every format; subtitles also throw on a negative timestamp.
  */
  lemma RenderedFails(format: string, s: seq<Segment>, formatSpeaker: SpeakerFormatter)
    ensures Rendered(format, Some(s), formatSpeaker).Failure? <==>
      s == [] || ((format == "srt" || format == "vtt") && !Timed(Merged(s).value))
  {
  }

  /** The transcript view's own state. */
  class TextAreaView {
    var format: string
    var text: string

    /** Mounting: the stored format, or `normal`, and an empty text. */
    constructor(stored: Option<string>)
      ensures format == StoredFormat(stored) && text == ""
    {
      format := StoredFormat(stored);
      text := "";
    }

    /** The effect on a change of format or segments; if the emitter throws, the text stays. */
    method Refresh(segments: Option<seq<Segment>>, formatSpeaker: SpeakerFormatter)
      returns (outcome: Result<string, TranscriptError>)
      modifies this
      ensures outcome == Rendered(format, segments, formatSpeaker)
      ensures format == old(format)
      ensures text == if outcome.Success? then outcome.value else old(text)
    {
      outcome := Rendered(format, segments, formatSpeaker);
      if outcome.Success? {
        text := outcome.value;
      }
    }

    /** The format select: stores the chosen value; the text follows on the next refresh. */
    method ChooseFormat(value: string)
      modifies this
      ensures format == value && text == old(text)
    {
      format := value;
    }

    /** Typing in the text area replaces the text and keeps the format. */
    method Edit(typed: string)
      modifies this
      ensures text == typed && format == old(format)
    {
      text := typed;
    }
  }

  /** The direction button: `rtl` becomes `ltr`, anything else becomes `rtl`. */
  function Toggled(direction: string): (r: string)
    ensures r == "ltr" || r == "rtl"
    ensures r == "ltr" <==> direction == "rtl"
  {
    if direction == "rtl" then "ltr" else "rtl"
  }

  /** Toggling twice restores exactly the two real directions. */
  lemma ToggleTwice(direction: string)
    ensures Toggled(Toggled(direction)) == direction <==> direction == "ltr" || direction == "rtl"
  {
  }

  /** Looking up an extension for a stored string that is no format reads `undefined` and throws. */
  datatype DownloadError = NoExtension

  /** The save dialog's filter extension, and the file written, if any. */
  datatype SaveRequest = SaveRequest(filter: string, written: Option<(string, string)>)

  /**
    download: the filter is the format's extension without its dot; the text is written only
    when the dialog returned a path, and an empty path counts as none.
  */
  function Download(text: string, format: string, chosen: Option<string>): (r: Result<SaveRequest, DownloadError>)
    ensures r.Failure? <==> Parse(format).None?
    ensures r.Success? ==> "." + r.value.filter == Extension(Parse(format).value)
    ensures r.Success? ==> (r.value.written.Some? <==> chosen.Some? && chosen.value != "")
    ensures r.Success? && r.value.written.Some? ==> r.value.written.value == (chosen.value, text)
  {
    match Parse(format)
    case None => Failure(NoExtension)
    case Some(f) =>
      var ext := Extension(f)[1..];
      assert "." + ext == Extension(f);
      if chosen.Some? && chosen.value != "" then Success(SaveRequest(ext, Some((chosen.value, text))))
      else Success(SaveRequest(ext, None))
  }

  /** Every format saves under a filter naming its own file type. */
  lemma DownloadFilters(f: TextFormat, text: string, chosen: Option<string>)
    ensures Download(text, Name(f), chosen).Success?
    ensures Download(text, Name(f), chosen).value.filter == if f == Normal then "txt" else Name(f)
  {
    ParseName(f);
  }
}
