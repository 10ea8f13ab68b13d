/**
  The command-line entry of desktop/src-tauri/src/cli.rs: detecting that the app was started
  from a terminal, resolving the model path, looking up the language, choosing the output
  format and writing the transcript. The transcription itself, the Rust `as_srt`, `as_vtt`
  and `as_text` (in the `vibe` crate) and the file system are parameters.
*/
module Cli {
  import opened Wrappers
  import opened Strings

  type Path = string

  /** The ways `run` panics before it transcribes: an `unwrap` on a missing value. */
  datatype CliError =
    | LanguageNotFound        // `languages[name].as_str().unwrap()` on a name without a string entry
    | ModelsFolderUnavailable // `get_models_folder().unwrap()`

  // ---------------------------------------------------------------- is_cli_detected

  /** An argument that marks a command-line start: a long option, or exactly `-h`. */
  predicate IsFlag(arg: string) {
    StartsWith(arg, "--") || arg == "-h"
  }

  /** Some argument, the program name included, is a flag. */
  predicate CliDetected(args: seq<string>) {
    exists i :: 0 <= i < |args| && IsFlag(args[i])
  }

  /** is_cli_detected: scans the arguments in order and stops at the first flag. */
  method IsCliDetected(args: seq<string>) returns (r: bool)
    ensures r == CliDetected(args)
  {
    for i := 0 to |args|
      invariant forall k :: 0 <= k < i ==> !IsFlag(args[k])
    {
      if StartsWith(args[i], "--") || args[i] == "-h" {
        return true;
      }
    }
    return false;
  }

  /** Short options other than `-h` do not count: `vibe -m model.bin` is not a command-line start. */
  lemma ShortOptionsNotDetected(program: string, model: string)
    requires !IsFlag(program) && !IsFlag(model)
    ensures !CliDetected([program, "-m", model])
  {
    var args := [program, "-m", model];
    forall i | 0 <= i < |args| ensures !IsFlag(args[i]) {
      if i == 1 {
        assert args[1][..2] == "-m";
      }
    }
  }

  /** Extra arguments never undo a detection, wherever they are added. */
  lemma DetectionKept(args: seq<string>, before: seq<string>, after: seq<string>)
    requires CliDetected(args)
    ensures CliDetected(before + args + after)
  {
    var i :| 0 <= i < |args| && IsFlag(args[i]);
    assert (before + args + after)[|before| + i] == args[i];
  }

  // ---------------------------------------------------------------- formats

  /** get_possible_formats: the values the `--format` parser accepts, in this order. */
  const PossibleFormats: seq<string> := ["txt", "srt", "vtt"]

  /** The three renderers of the transcript crate, which the model treats as opaque. */
  datatype Renderer = RenderSrt | RenderVtt | RenderText

  /** The name `--format` uses for each renderer. */
  function FormatName(r: Renderer): string {
    match r
    case RenderSrt => "srt"
    case RenderVtt => "vtt"
    case RenderText => "txt"
  }

  /** The `match args.format.as_str()` of `run`: the renderer, and whether the fallback warning is printed. */
  function Dispatch(format: string): (r: (Renderer, bool))
    ensures r.1 <==> format !in PossibleFormats
    ensures r.1 ==> r.0 == RenderSrt
    ensures !r.1 ==> FormatName(r.0) == format
  {
    if format == "srt" then (RenderSrt, false)
    else if format == "vtt" then (RenderVtt, false)
    else if format == "txt" then (RenderText, false)
    else (RenderSrt, true)
  }

  /** Every renderer is reached by its own name and by no other accepted one. */
  lemma DispatchByName(r: Renderer)
    ensures FormatName(r) in PossibleFormats
    ensures Dispatch(FormatName(r)) == (r, false)
  {
  }

  /** What `run` prints on stdout, and what it asks to write with `--write`. */
  datatype RunOutput = RunOutput(printed: string, written: Option<(Path, string)>, warnings: nat)

  /**
    Lines 135-164: the dispatch is evaluated once for stdout and once more for the file, so
    the text written is the text printed and an invalid format warns twice with `--write`.
  */
  function Outputs(format: string, write: Option<Path>, render: Renderer -> string): (r: RunOutput)
    ensures r.written.Some? <==> write.Some?
    ensures r.written.Some? ==> r.written.value == (write.value, r.printed)
    ensures r.printed == render(if format in PossibleFormats then Dispatch(format).0 else RenderSrt)
    ensures r.warnings == if format in PossibleFormats then 0 else if write.Some? then 2 else 1
  {
    var (toStdout, warned) := Dispatch(format);
    var printed := render(toStdout);
    match write
    case None => RunOutput(printed, None, if warned then 1 else 0)
    case Some(path) =>
      var (toFile, warnedAgain) := Dispatch(format);
      RunOutput(printed, Some((path, render(toFile))), (if warned then 1 else 0) + (if warnedAgain then 1 else 0))
  }

  // ---------------------------------------------------------------- prepare_model_path

  /** The file-system queries prepare_model_path makes. */
  datatype FileSystem = FileSystem(isAbsolute: Path -> bool, pathExists: Path -> bool, join: (Path, Path) -> Path)

  /**
    prepare_model_path: an absolute path as given; otherwise the path relative to the
    working directory if it exists; otherwise the path under the models folder if that
    exists; otherwise the path as given. The models folder is looked up (and its failure
    panics) only when the first two tests fail.
  */
  function PrepareModelPath(path: Path, fs: FileSystem, modelsFolder: Option<Path>): (r: Result<Path, CliError>)
    ensures r.Failure? <==> !fs.isAbsolute(path) && !fs.pathExists(path) && modelsFolder.None?
    ensures r.Success? ==> r.value == path || (modelsFolder.Some? && r.value == fs.join(modelsFolder.value, path))
    ensures r.Success? && r.value != path ==> fs.pathExists(r.value)
    ensures fs.isAbsolute(path) || fs.pathExists(path) ==> r == Success(path)
  {
    if fs.isAbsolute(path) then Success(path)
    else if fs.pathExists(path) then Success(path)
    else
      match modelsFolder
      case None => Failure(ModelsFolderUnavailable)
      case Some(folder) =>
        var underModels := fs.join(folder, path);
        if fs.pathExists(underModels) then Success(underModels) else Success(path)
  }

  /** Resolving a resolved path changes nothing, as long as the file system does not change. */
  lemma PrepareIdempotent(path: Path, fs: FileSystem, modelsFolder: Option<Path>)
    requires PrepareModelPath(path, fs, modelsFolder).Success?
    ensures PrepareModelPath(PrepareModelPath(path, fs, modelsFolder).value, fs, modelsFolder)
      == PrepareModelPath(path, fs, modelsFolder)
  {
  }

  // ---------------------------------------------------------------- language lookup

  /** A value of the JSON language table: only strings matter to the lookup. */
  datatype Json = JString(s: string) | JOther

  /** get_possible_languages: the language argument must be a key of the table. */
  predicate LanguageAccepted(table: map<string, Json>, name: string) {
    name in table
  }

  /** language_name_to_whisper_lang: panics unless the entry exists and is a string. */
  function WhisperLang(table: map<string, Json>, name: string): (r: Result<string, CliError>)
    ensures r.Success? <==> name in table && table[name].JString?
    ensures r.Success? ==> r.value == table[name].s
    ensures r.Failure? ==> r.error == LanguageNotFound
  {
    if name in table && table[name].JString? then Success(table[name].s) else Failure(LanguageNotFound)
  }

  /** A table of strings, as the bundled whisper-languages.json is. */
  predicate StringTable(table: map<string, Json>) {
    forall name :: name in table ==> table[name].JString?
  }

  /** Any language the parser accepts is found: the `unwrap` cannot panic on a parsed argument. */
  lemma AcceptedLanguageResolves(table: map<string, Json>, name: string)
    requires StringTable(table) && LanguageAccepted(table, name)
    ensures WhisperLang(table, name).Success?
  {
  }

  // ---------------------------------------------------------------- run

  /** The parsed command line; clap fills in the defaults. */
  datatype Args = Args(
    model: Path,
    file: Path,
    language: string,
    temperature: Option<real>,
    nThreads: Option<int>,
    translate: Option<bool>,
    initPrompt: Option<string>,
    write: Option<Path>,
    format: string)

  /** The defaults clap supplies: english, temperature 0.4, 4 threads, SRT. */
  function DefaultArgs(model: Path, file: Path): Args {
    Args(model, file, "english", Some(0.4), Some(4), None, None, None, "srt")
  }

  /** What the value parsers accept: a language of the table and one of the possible formats. */
  predicate Parsed(args: Args, table: map<string, Json>) {
    LanguageAccepted(table, args.language) && args.format in PossibleFormats
  }

  /** vibe's TranscribeOptions as `run` fills it in. */
  datatype TranscribeOptions = TranscribeOptions(
    path: Path,
    modelPath: Path,
    lang: Option<string>,
    initPrompt: Option<string>,
    nThreads: Option<int>,
    temperature: Option<real>,
    translate: Option<bool>,
    verbose: bool)

  /**
    Lines 117-129: the language is looked up first, then the options are filled in from the
    arguments with `verbose` off, then the model path is resolved.
  */
  function BuildOptions(args: Args, table: map<string, Json>, fs: FileSystem, modelsFolder: Option<Path>)
    : (r: Result<TranscribeOptions, CliError>)
    ensures WhisperLang(table, args.language).Failure? ==> r == Failure(LanguageNotFound)
    ensures r.Success? ==> r.value.lang == Some(table[args.language].s) && !r.value.verbose
    ensures r.Success? <==>
      WhisperLang(table, args.language).Success? && PrepareModelPath(args.model, fs, modelsFolder).Success?
    ensures r.Success? ==>
      (r.value.path == args.file && r.value.initPrompt == args.initPrompt
       && r.value.nThreads == args.nThreads && r.value.temperature == args.temperature
       && r.value.translate == args.translate)
    ensures r.Success? ==> PrepareModelPath(args.model, fs, modelsFolder) == Success(r.value.modelPath)
  {
    var lang :- WhisperLang(table, args.language);
    var options := TranscribeOptions(args.file, args.model, Some(lang), args.initPrompt,
      args.nThreads, args.temperature, args.translate, false);
    var modelPath :- PrepareModelPath(options.modelPath, fs, modelsFolder);
    Success(options.(modelPath := modelPath))
  }

  /** A parsed command line never takes the SRT fallback and never warns about the format. */
  lemma ParsedNeverFallsBack(args: Args, table: map<string, Json>, render: Renderer -> string)
    requires Parsed(args, table)
    ensures Outputs(args.format, args.write, render).warnings == 0
    ensures Outputs(args.format, args.write, render).printed == render(Dispatch(args.format).0)
    ensures FormatName(Dispatch(args.format).0) == args.format
  {
  }

  /** The defaults parse whenever the table has an `english` entry. */
  lemma DefaultsParse(model: Path, file: Path, table: map<string, Json>)
    requires "english" in table
    ensures Parsed(DefaultArgs(model, file), table)
    ensures Dispatch(DefaultArgs(model, file).format).0 == RenderSrt
  {
  }

  // ---------------------------------------------------------------- the completion message

  /** A Rust `Duration`: whole seconds and the nanoseconds of the second under way. */
  datatype Elapsed = Elapsed(secs: nat, subsecNanos: nat)

  predicate ValidElapsed(e: Elapsed) {
    e.subsecNanos < 1_000_000_000
  }

  /** `elapsed.as_secs_f64()`: the whole duration in seconds, fraction included. */
  function AsSecs(e: Elapsed): real {
    e.secs as real + e.subsecNanos as real / 1_000_000_000.0
  }

  /**
    The seconds the completion message reports, as line 169 computes them: `as_secs_f64()`
    already holds the fraction, and the nanoseconds are added a second time.
  */
  function ReportedSecondsAsWritten(e: Elapsed): (r: real)
    requires ValidElapsed(e)
    ensures r == ReportedSeconds(e) + e.subsecNanos as real / 1_000_000_000.0
    ensures r == ReportedSeconds(e) <==> e.subsecNanos == 0
    ensures r >= e.secs as real + 1.0 <==> e.subsecNanos >= 500_000_000
  {
    AsSecs(e) + e.subsecNanos as real / 1_000_000_000.0
  }

  /** One and a half seconds are reported as two. */
  lemma ReportedTwiceTheFraction()
    ensures ValidElapsed(Elapsed(1, 500_000_000))
    ensures AsSecs(Elapsed(1, 500_000_000)) == 1.5
    ensures ReportedSecondsAsWritten(Elapsed(1, 500_000_000)) == 2.0
  {
  }

  /** The intended report: the elapsed time itself, between its whole seconds and the next. */
  function ReportedSeconds(e: Elapsed): (r: real)
    requires ValidElapsed(e)
    ensures e.secs as real <= r < e.secs as real + 1.0
    ensures r * 1_000_000_000.0 == (e.secs * 1_000_000_000 + e.subsecNanos) as real
  {
    AsSecs(e)
  }
}
