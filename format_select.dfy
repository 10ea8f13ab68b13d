/**
  desktop/src/components/FormatSelect.tsx: the closed set of text formats the transcript
  view offers, the file extension of each, and the select that offers them.
*/
module FormatSelect {
  import opened Wrappers

  /** TextFormat: exactly three values. */
  datatype TextFormat = Normal | Srt | Vtt

  /** The string each format is stored and compared as. */
  function Name(f: TextFormat): string {
    match f
    case Normal => "normal"
    case Srt => "srt"
    case Vtt => "vtt"
  }

  /**
    The value the select hands back. The component casts it without a check; the model
    says which strings are formats at all.
  */
  function Parse(s: string): (r: Option<TextFormat>)
    ensures r.Some? ==> Name(r.value) == s
  {
    if s == "normal" then Some(Normal)
    else if s == "srt" then Some(Srt)
    else if s == "vtt" then Some(Vtt)
    else None
  }

  /** Parse reads back every name. */
  lemma ParseName(f: TextFormat)
    ensures Parse(Name(f)) == Some(f)
  {
  }

  /** formatExtensions: a total table from format to extension. */
  function Extension(f: TextFormat): (r: string)
    ensures |r| == 4 && r[0] == '.'
    ensures r[1..] == (if f == Normal then "txt" else Name(f))
  {
    match f
    case Normal => ".txt"
    case Srt => ".srt"
    case Vtt => ".vtt"
  }

  /** No two formats share an extension. */
  lemma ExtensionsDistinct(f: TextFormat, g: TextFormat)
    ensures Extension(f) == Extension(g) <==> f == g
  {
    if f != g {
      assert Extension(f)[1..] != Extension(g)[1..];
    }
  }

  /** The options of the select, in the order it lists them. */
  const Choices: seq<TextFormat> := [Normal, Srt, Vtt]

  /** The select offers every format once and nothing else. */
  lemma ChoicesComplete(f: TextFormat)
    ensures f in Choices
    ensures |Choices| == 3 && Choices[0] != Choices[1] && Choices[0] != Choices[2] && Choices[1] != Choices[2]
    ensures forall i :: 0 <= i < |Choices| ==> Parse(Name(Choices[i])) == Some(Choices[i])
  {
  }
}
