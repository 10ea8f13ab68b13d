# Vibe transcript pipeline, command line, transcription session and preferences in Dafny

Vibe is a desktop speech-to-text application. This project models the parts of it that
decide what a transcript looks like and how the user interface reacts to a transcription:

- **Transcript export** (`desktop/src/lib/transcript.ts`): the segment data model;
  `formatTimestamp`, an integer clock decomposition whose argument counts 10 ms ticks;
  `mergeSpeakerSegments`, a left-to-right scan that joins consecutive segments of the same
  speaker; and `asSrt`, `asVtt` and `asText`, which reduce the merged segments into a
  SubRip document, a WebVTT body without its `WEBVTT` header, or plain paragraphs.
  Modules `Segments`, `Timestamp`, `SpeakerMerge`, `TranscriptExport`; string helpers
  (`padStart`, `trim`, `indexOf`, `replace` of the first occurrence) live in `Strings`, and
  an `Option`/`Result` pair in `Wrappers`.
- **Command line** (`desktop/src-tauri/src/cli.rs`, module `Cli`): detecting a command-line
  start, the accepted formats and the format dispatch with its SRT fallback, resolving the
  model path, looking up the whisper code of a language, filling in the transcription
  options, and the completion message's elapsed seconds.
- **Transcription session** (`desktop/src/pages/home/viewModel.ts` and
  `desktop/src/pages/transcribe/viewModel.ts`, module `Session`): one class
  `TranscriptionSession` holding the view models' state cells (files, segments, progress,
  loading, aborting, the abort ref, the audio file) whose methods are the event handlers:
  progress and segment events, abort, file selection, drop, deep links, opening the folder,
  and the begin and end of `transcribe`. `checkModelExists` and the CPU check are decision
  functions.
- **Preferences** (`desktop/src/providers/Preference.tsx`, module `Preference`): the
  defaults, `resetOptions`, `setLanguageDefaults`, and the mount-guarded effects, as a class
  `Preferences` whose fields are the persisted values and the two refs.
- **Small components**: the format table of `FormatSelect.tsx` (module `FormatSelect`), the
  format dispatch, direction toggle and download of `TextArea.tsx` (module `TextArea`, class
  `TextAreaView`), the sort-then-group language picker of `LanguageInput.tsx` (module
  `LanguageInput`) and the prompt truncation and field-local edits of `Params.tsx` (module
  `Params`).

Everything the code reaches outside itself is a parameter: `formatSpeaker`, the translation
function `t`, `localeCompare` (assumed to be a total preorder), `parseInt`/`parseFloat`, the
file system queries (`is_absolute`, `exists`, `join`, `ls`), the dialogs, the backend's
answer to `transcribe`, and the Rust `as_srt`/`as_vtt`/`as_text`. What a handler asks of the
window (navigation, the error dialog, the sound, the focus, the backend call) is returned as
a value.

Where the code and its documentation disagree the model follows the code: `asVtt` writes no
`WEBVTT` header although section 4.1 of the W3C WebVTT specification requires one, the
argument of `formatTimestamp` is a count of 10 ms units although it is named `seconds`, and
the stored text format defaults to `'pdf'`, which is not a `TextFormat`.

## Model

| member | source | states |
|---|---|---|
| Timestamp.FormatTimestamp | desktop/src/lib/transcript.ts:21-25 | fails with NegativeTimestamp exactly when the argument is negative; never clamps it |
| Timestamp.FormatTimestampStepwise | desktop/src/lib/transcript.ts:21-46 | the step-by-step reduction of `milliseconds` and the string assembly give the same result as FormatTimestamp |
| Timestamp.ClockOf | desktop/src/lib/transcript.ts:26-35 | hours*3600000 + minutes*60000 + seconds*1000 + millis == 10*ticks, with minutes < 60, seconds < 60, millis < 1000 |
| Timestamp.MinutesSecondsDigits | desktop/src/lib/transcript.ts:39 | minutes and seconds are each exactly two decimal digits |
| Timestamp.MillisDigits | desktop/src/lib/transcript.ts:41-43 | the marker and exactly three digits are appended when and only when milliseconds are included |
| Timestamp.HoursDigits | desktop/src/lib/transcript.ts:37 | shown hours are at least two digits and read back as the hour count |
| Timestamp.TimestampLength | desktop/src/lib/transcript.ts:37-45 | the `HH:` part is present iff hours are forced or non-zero; then 5 characters; then marker plus 3 digits iff milliseconds are included |
| Timestamp.NoHoursUnderOneHour | desktop/src/lib/transcript.ts:28-45 | under 360000 ticks, without forced hours, the text is `MM:SS<marker>mmm` of fixed length |
| Timestamp.TimestampOfZero | desktop/src/lib/transcript.ts:21-46 | `formatTimestamp(0, false, '.')` is `"00:00.000"` |
| Timestamp.ReadClockRoundTrip | desktop/src/lib/transcript.ts:26-45 | with hours forced and milliseconds shown, the text parses back to the clock fields, which stand for 10*ticks ms |
| SpeakerMerge.Merged | desktop/src/lib/transcript.ts:48-79 | fails (NoFirstSegment) exactly on the empty list; a first segment without a truthy speaker returns the input unchanged |
| SpeakerMerge.MergeSpeakerSegments | desktop/src/lib/transcript.ts:48-79 | the loop with its pushes computes Merged |
| SpeakerMerge.RunLength | desktop/src/lib/transcript.ts:56-70 | the first maximal run of equal speakers: every segment in it shares the first speaker, the one after it does not |
| SpeakerMerge.Runs | desktop/src/lib/transcript.ts:56-74 | one segment per maximal run, the first being the collapse of the first run; never longer than the input |
| SpeakerMerge.ScanIsRuns | desktop/src/lib/transcript.ts:54-71 | with every speaker non-empty, the pushed segments plus the one being accumulated are exactly the runs so far |
| SpeakerMerge.MergedIsRuns | desktop/src/lib/transcript.ts:53-75 | with every speaker non-empty, the merge returns exactly the maximal runs |
| SpeakerMerge.RunsAdjacentDistinct | desktop/src/lib/transcript.ts:56-70 | neighbouring output segments have different speakers |
| SpeakerMerge.RunsKeepTexts | desktop/src/lib/transcript.ts:63-66 | the output texts concatenate, with no separator, to the input texts |
| SpeakerMerge.RunsSpan | desktop/src/lib/transcript.ts:63-67 | the first output starts where the first input starts; the last stops where the last input stops |
| SpeakerMerge.SingleSpeaker | desktop/src/lib/transcript.ts:63-67 | one speaker throughout gives one segment: first start, last stop, all texts joined |
| SpeakerMerge.RunsOfDistinct | desktop/src/lib/transcript.ts:56-63 | a list whose neighbours all differ in speaker is returned as it is |
| SpeakerMerge.RunsSpeakers | desktop/src/lib/transcript.ts:63-70 | every output speaker is some input segment's speaker |
| SpeakerMerge.MergeIdempotent | desktop/src/lib/transcript.ts:48-79 | with every speaker non-empty, merging a merged list changes nothing |
| SpeakerMerge.MergedTimed | desktop/src/lib/transcript.ts:63-67 | non-negative times stay non-negative through the merge |
| SpeakerMerge.UnlabelledSegmentLost | desktop/src/lib/transcript.ts:56-70 | a segment without a speaker after a labelled one is dropped when another segment follows (the push is guarded by `currentSpeaker !== undefined`) |
| SpeakerMerge.EmptySpeakerNotJoined | desktop/src/lib/transcript.ts:56-70 | two neighbouring segments with the empty speaker are not joined |
| TranscriptExport.Cue | desktop/src/lib/transcript.ts:83-89 | the reduce callback throws NegativeTimestamp exactly for a subtitle layout and a negative start or stop |
| TranscriptExport.CueIsBlock | desktop/src/lib/transcript.ts:83-110 | the callback's string for index i is the separator (SRT's `\n`, when i > 0) and the segment's block numbered i+1 |
| TranscriptExport.ReduceCues | desktop/src/lib/transcript.ts:83-90 | the reduce fails exactly when the callback fails on some index |
| TranscriptExport.ReduceFails | desktop/src/lib/transcript.ts:83-110 | the reduce throws exactly when a subtitle layout meets a negative timestamp |
| TranscriptExport.ReduceIsJoin | desktop/src/lib/transcript.ts:83-110 | the document is the blocks numbered from 1, joined by a blank line in SRT and by nothing otherwise |
| TranscriptExport.Emit | desktop/src/lib/transcript.ts:81-111 | fails exactly on the empty list (NoFirstSegment) or a subtitle layout with a negative time after the merge |
| TranscriptExport.AsSrt | desktop/src/lib/transcript.ts:81-91 | fails exactly on the empty list or a negative time after merging; succeeds on non-empty input with non-negative times |
| TranscriptExport.AsVtt | desktop/src/lib/transcript.ts:93-102 | fails exactly as asSrt does |
| TranscriptExport.AsText | desktop/src/lib/transcript.ts:104-111 | fails only on the empty list, whatever the times |
| TranscriptExport.DocumentOfRuns | desktop/src/lib/transcript.ts:81-111 | with every speaker non-empty, each document is the blocks of the maximal speaker runs |
| TranscriptExport.DocumentOfUnlabelled | desktop/src/lib/transcript.ts:76-111 | when the first segment has no speaker, one block per input segment |
| TranscriptExport.OpensWithFirstBlock | desktop/src/lib/transcript.ts:83-110 | a produced document opens with the block of its first segment |
| TranscriptExport.SrtBlockOpensWithNumber | desktop/src/lib/transcript.ts:86 | an SRT block opens with its number and a newline |
| TranscriptExport.VttBlockOpensWithStart | desktop/src/lib/transcript.ts:98 | a WebVTT block opens with its start time, hours only when non-zero, `.` as marker |
| TranscriptExport.SrtStartsWithCueOne | desktop/src/lib/transcript.ts:81-91 | every SRT document opens with `1\n` |
| TranscriptExport.VttStartsWithTime | desktop/src/lib/transcript.ts:93-102 | a WebVTT document has no header: it opens with the first merged segment's start time |
| TranscriptExport.SecondArrowSurvives | desktop/src/lib/transcript.ts:88 | only the first `-->` of a cue text is shortened; a later one remains |
| TranscriptExport.ShorteningRecreatesArrow | desktop/src/lib/transcript.ts:99 | the text `---->` is shortened to `--->`, which still holds `-->` |
| Segments.TimedSnoc | desktop/src/lib/transcript.ts:14-19 | a list has non-negative times iff its prefix and last segment do |
| Cli.IsCliDetected | desktop/src-tauri/src/cli.rs:24-35 | true iff some argument, the program name included, starts with `--` or is `-h`; false on no arguments |
| Cli.ShortOptionsNotDetected | desktop/src-tauri/src/cli.rs:29-34 | short options other than `-h` are not a command-line start |
| Cli.DetectionKept | desktop/src-tauri/src/cli.rs:29-34 | adding arguments anywhere never undoes a detection |
| Cli.Dispatch | desktop/src-tauri/src/cli.rs:137-145 | srt, vtt, txt pick their renderer; any other string warns and falls back to SRT |
| Cli.DispatchByName | desktop/src-tauri/src/cli.rs:86-88 | each renderer's name is one of `txt`, `srt`, `vtt` and dispatches to it without a warning |
| Cli.Outputs | desktop/src-tauri/src/cli.rs:135-164 | the written text equals the printed text; an invalid format warns once, twice with `--write` |
| Cli.PrepareModelPath | desktop/src-tauri/src/cli.rs:90-104 | absolute or existing paths unchanged; else the models-folder join if it exists; else the input; a missing models folder panics only when both first tests fail |
| Cli.PrepareIdempotent | desktop/src-tauri/src/cli.rs:90-104 | resolving a resolved path changes nothing |
| Cli.WhisperLang | desktop/src-tauri/src/cli.rs:106-110 | succeeds iff the table has the name as a string entry, and returns that string |
| Cli.AcceptedLanguageResolves | desktop/src-tauri/src/cli.rs:50 | a language the parser accepts from a string table never makes the lookup panic |
| Cli.BuildOptions | desktop/src-tauri/src/cli.rs:117-129 | the fields are copied from the arguments, `lang` is the whisper code, `verbose` is off, the model path is resolved; fails iff a lookup panics |
| Cli.ParsedNeverFallsBack | desktop/src-tauri/src/cli.rs:74 | a parsed format never warns and dispatches to its own renderer |
| Cli.DefaultsParse | desktop/src-tauri/src/cli.rs:50-76 | the defaults (english, srt) parse when the table has `english`, and render SRT |
| Cli.ReportedSecondsAsWritten | desktop/src-tauri/src/cli.rs:167-170 | for every duration the report is the intended value (Cli.ReportedSeconds) plus the fraction once more; it equals the intended value exactly when the fraction is zero, and reaches the next whole second exactly when the fraction is at least half a second |
| Cli.ReportedTwiceTheFraction | desktop/src-tauri/src/cli.rs:167-170 | 1.5 s elapsed are reported as 2.0 |
| Cli.ReportedSeconds | desktop/src-tauri/src/cli.rs:167-170 | the intended report lies in [secs, secs+1) and equals the duration exactly |
| FormatSelect.Parse | desktop/src/components/FormatSelect.tsx:4 | a string parsed as a format is that format's name |
| FormatSelect.ParseName | desktop/src/components/FormatSelect.tsx:4 | every format's name parses back to it |
| FormatSelect.Extension | desktop/src/components/FormatSelect.tsx:8-12 | four characters, a leading `.`, then `txt` for normal and the format's name otherwise |
| FormatSelect.ExtensionsDistinct | desktop/src/components/FormatSelect.tsx:8-12 | two formats share an extension iff they are the same |
| FormatSelect.ChoicesComplete | desktop/src/components/FormatSelect.tsx:31-33 | the select offers each of the three formats exactly once |
| Params.Truncated | desktop/src/components/Params.tsx:39 | at most 1024 characters, a prefix of the value, the value itself when it fits |
| Params.EditPrompt | desktop/src/components/Params.tsx:39 | stores a prefix of the typed text of at most 1024 characters, the whole text when it fits; other fields unchanged |
| Params.EditThreads | desktop/src/components/Params.tsx:51 | stores `parseInt` of the typed text; other fields unchanged |
| Params.EditTemperature | desktop/src/components/Params.tsx:66 | stores `parseFloat` of the typed text; other fields unchanged |
| Params.Leftover | desktop/src/components/Params.tsx:34 | 1024 minus the prompt length, a missing prompt counting as 0 |
| Params.LeftoverAfterEdit | desktop/src/components/Params.tsx:34-39 | after a prompt edit the counter is non-negative: 1024 minus the typed length, or 0 |
| Params.EditPromptIdempotent | desktop/src/components/Params.tsx:39 | the same prompt edit twice is the edit once |
| Params.EditPromptStable | desktop/src/components/Params.tsx:38-39 | typing the stored prompt back changes nothing |
| Params.EditsCommute | desktop/src/components/Params.tsx:39-66 | edits of different fields commute |
| TextArea.StoredFormat | desktop/src/components/TextArea.tsx:32 | `normal` when nothing is stored, the stored string otherwise |
| TextArea.Rendered | desktop/src/components/TextArea.tsx:35-41 | no segments give the empty text |
| TextArea.RenderedByFormat | desktop/src/components/TextArea.tsx:37 | vtt, srt and normal render with the WebVTT, SubRip and text emitters |
| TextArea.UnknownFormatIsText | desktop/src/components/TextArea.tsx:37 | a string that is no format renders as plain text |
| TextArea.RenderedFails | desktop/src/components/TextArea.tsx:35-41 | rendering throws iff the segments are empty, or a subtitle format meets a negative merged time |
| TextArea.TextAreaView.constructor | desktop/src/components/TextArea.tsx:32-33 | the stored format (or `normal`) and an empty text |
| TextArea.TextAreaView.Refresh | desktop/src/components/TextArea.tsx:35-41 | the text becomes the rendering when it succeeds and stays otherwise; the format is kept |
| TextArea.TextAreaView.ChooseFormat | desktop/src/components/TextArea.tsx:60-62 | stores the chosen string unchecked; the text is kept |
| TextArea.TextAreaView.Edit | desktop/src/components/TextArea.tsx:74 | the text becomes the typed text; the format is kept |
| TextArea.Toggled | desktop/src/components/TextArea.tsx:53 | always `ltr` or `rtl`; `ltr` exactly when the direction was `rtl` |
| TextArea.ToggleTwice | desktop/src/components/TextArea.tsx:53 | toggling twice restores the direction iff it was `ltr` or `rtl` |
| TextArea.Download | desktop/src/components/TextArea.tsx:14-27 | throws iff the format is not a TextFormat; the filter is the extension without its dot; the text is written iff a non-empty path was chosen |
| TextArea.DownloadFilters | desktop/src/components/TextArea.tsx:14-15 | every format saves under `txt`, `srt` or `vtt` |
| LanguageInput.Entries | desktop/src/components/LanguageInput.tsx:14-16 | one entry per table pair, in order, labelled by the translation of `language.<name>` |
| LanguageInput.Insert | desktop/src/components/LanguageInput.tsx:18-20 | inserting adds exactly the entry |
| LanguageInput.SortByLabel | desktop/src/components/LanguageInput.tsx:18-20 | the sort is a permutation |
| LanguageInput.SortSorts | desktop/src/components/LanguageInput.tsx:18-20 | for a total-preorder comparison the result is in label order and a permutation |
| LanguageInput.InsertSorted | desktop/src/components/LanguageInput.tsx:18-20 | inserting into a sorted list keeps it sorted |
| LanguageInput.SortedUnchanged | desktop/src/components/LanguageInput.tsx:18-20 | entries already in label order are left as they are |
| LanguageInput.ChoicesOf | desktop/src/components/LanguageInput.tsx:31-33 | an option keeps exactly its entry's label and code |
| LanguageInput.Group | desktop/src/components/LanguageInput.tsx:25-35 | the forEach pushes exactly the popular entries, in order, into one group and the others into the other |
| LanguageInput.Options | desktop/src/components/LanguageInput.tsx:14-35 | the groups are those of the sorted entries |
| LanguageInput.PickedSplits | desktop/src/components/LanguageInput.tsx:29-35 | every entry lands in exactly one group; the sizes add up |
| LanguageInput.PickedMembers | desktop/src/components/LanguageInput.tsx:30 | a group holds only entries of its kind |
| LanguageInput.PickedKeepsOrder | desktop/src/components/LanguageInput.tsx:29-35 | each group keeps the sorted order |
| LanguageInput.GroupsPartitionTable | desktop/src/components/LanguageInput.tsx:14-35 | both groups sorted, popular iff the name is the interface language, `auto` or `english`, together a permutation of the table's entries |
| Preference.Defaults | desktop/src/providers/Preference.tsx:115-138 | first-start values; the display language is the interface's; the stored text format (`pdf`) is not a TextFormat |
| Preference.ResetRestoresDefaults | desktop/src/providers/Preference.tsx:178-188 | the nine reset fields take their default values; the other nine are kept |
| Preference.ResetIdempotent | desktop/src/providers/Preference.tsx:178-188 | resetting twice is resetting once; the first-start state is already reset |
| Preference.LanguageDefaultsScope | desktop/src/providers/Preference.tsx:156-162 | an unsupported display language changes nothing; otherwise only the model language and the direction change |
| Preference.LanguageDefaultsIdempotent | desktop/src/providers/Preference.tsx:156-162 | applying the language defaults twice is applying them once |
| Preference.Preferences.constructor | desktop/src/providers/Preference.tsx:113-138 | every preference at its default, first-run flag up, refs unset |
| Preference.Preferences.ResetOptions | desktop/src/providers/Preference.tsx:178-188 | the nine setters: those fields take their defaults; the modifies frame names only those nine fields, so every other field is unchanged |
| Preference.Preferences.SetLanguageDefaults | desktop/src/providers/Preference.tsx:156-162 | the new state is LanguageDefaults of the old |
| Preference.Preferences.SetTextAreaDirection | desktop/src/providers/Preference.tsx:123 | only the direction changes |
| Preference.Preferences.FirstRunEffect | desktop/src/providers/Preference.tsx:140-142 | the first-run flag goes down, nothing else changes |
| Preference.Preferences.GpuPreferenceEffect | desktop/src/providers/Preference.tsx:144-150 | the backend is called iff the ref was set and the platform is Windows; the ref is set afterwards |
| Preference.Preferences.LanguageEffect | desktop/src/providers/Preference.tsx:163-172 | past the mount guard, defaults are applied iff the language moved or it is a first run, and the language is recorded |
| Preference.Preferences.Mount | desktop/src/providers/Preference.tsx:140-172 | on mount the graphics effect sets the ref, so no backend call is made and the language defaults are applied iff it is a first run |
| Session.BatchIfMany | desktop/src/pages/home/viewModel.ts:90-92 | navigation to the batch page iff more than one file, carrying those files |
| Session.NamedOf | desktop/src/pages/home/viewModel.ts:84-87 | one named path per selected file, a missing name read as empty |
| Session.StreamedAppends | desktop/src/pages/home/viewModel.ts:61-64 | a stream of segment events appends the payloads, in order, after what was there (nothing counting as empty) |
| Session.FolderToOpen | desktop/src/pages/transcribe/viewModel.ts:54-62 | the first file's path with the first occurrence of its name removed, opened only when a file exists and the result is non-empty |
| Session.FolderOfFile | desktop/src/pages/transcribe/viewModel.ts:57 | a path ending in the name, which does not occur earlier, opens its directory |
| Session.FolderCutsEarlierOccurrence | desktop/src/pages/transcribe/viewModel.ts:57 | `/a/a` with name `a` opens `//a`: the first occurrence is removed |
| Session.ModelFiles | desktop/src/pages/transcribe/viewModel.ts:110 | an entry is kept exactly when it is a `.bin` entry of the listing, and the first kept entry is the first `.bin` entry in listing order (the `filtered[0]` of line 119) |
| Session.CheckModelExists | desktop/src/pages/transcribe/viewModel.ts:106-127 | a failed listing, or no model and setup not skipped, goes to setup; a model path that is missing, empty or absent from disk is replaced by the first model file; the setup page is chosen in exactly the first two cases, so otherwise nothing changes |
| Session.CheckSettles | desktop/src/pages/transcribe/viewModel.ts:117-120 | a chosen model path that exists is kept by a second check |
| Session.Unsupported | desktop/src/pages/home/viewModel.ts:162-164 | exactly the names of the features enabled in the build and not supported by the CPU |
| Session.UnsupportedEmpty | desktop/src/pages/home/viewModel.ts:162-165 | no feature is listed iff every enabled feature is supported |
| Session.InitializesListeners | desktop/src/pages/home/viewModel.ts:159-184 | the listeners are set up iff no feature report or no unsupported feature |
| Session.TranscriptionSession.constructor | desktop/src/pages/home/viewModel.ts:33-39 | the routed files, no segments, progress 0, every flag down |
| Session.TranscriptionSession.OnFilesChanged | desktop/src/pages/home/viewModel.ts:45-49 | a single file is loaded into the player; nothing else changes |
| Session.TranscriptionSession.OnProgress | desktop/src/pages/home/viewModel.ts:55-60 | a value is stored iff it lies in [0, 100]; nothing else changes |
| Session.TranscriptionSession.OnNewSegment | desktop/src/pages/home/viewModel.ts:61-64 | the payload is appended after every earlier segment, a missing list becoming `[payload]` |
| Session.TranscriptionSession.OnAbort | desktop/src/pages/home/viewModel.ts:67-71 | both abort flags go up |
| Session.TranscriptionSession.SelectFiles | desktop/src/pages/home/viewModel.ts:73-94 | a cancelled dialog changes nothing; otherwise the selection replaces the files and more than one navigates to the batch page |
| Session.TranscriptionSession.Drop | desktop/src/pages/home/viewModel.ts:119-131 | the dropped paths, resolved in order, replace the files; more than one navigates to the batch page |
| Session.TranscriptionSession.DeepLinks | desktop/src/pages/home/viewModel.ts:147-156 | the links are appended after the existing files; navigation looks at the new files only |
| Session.TranscriptionSession.OpenFolder | desktop/src/pages/transcribe/viewModel.ts:54-62 | opens FolderToOpen of the files and changes nothing |
| Session.TranscriptionSession.BeginTranscribe | desktop/src/pages/home/viewModel.ts:190-200 | segments cleared and loading on; a request exactly when there is a file, carrying the first file's path, the model path and the model options |
| Session.TranscriptionSession.FinishTranscribe | desktop/src/pages/home/viewModel.ts:206-227 | loading and aborting off and progress cleared on every path; segments set on success; error, sound and focus only when not aborted |
| Session.Run | desktop/src/pages/transcribe/viewModel.ts:175-207 | after a whole run the flags are down and progress cleared; an aborted run has no effects; with a file the segments are the answer's or the streamed ones; without one nothing is sent, the segments stay cleared and, unless aborted earlier, the thrown error is shown before the sound and the focus |

## Left out

- `asJson` (desktop/src/lib/transcript.ts:113-115) is a call of `JSON.stringify`, a library function.
- `formatSpeaker` comes from `desktop/src/lib/utils.ts`, which is not part of this model; it is an uninterpreted parameter.
- Times are integers: fractional `formatTimestamp` arguments, which JavaScript would print with a fractional millisecond field, are not modelled.
- Timestamp.FormatTimestamp computes on unbounded integers; JavaScript computes `seconds * 10` and the divisions on doubles, which lose integer precision above 2^53, and `String` switches to exponent notation from 1e21, so very large timestamps print differently there.
- Strings are sequences of characters; JavaScript's UTF-16 code units, which `slice(0, 1024)` and `.length` count, are not modelled (a character outside the Basic Multilingual Plane counts once here and twice there).
- Floating point: temperatures, the diarize threshold and progress values are reals; `parseInt` and `parseFloat` are parameters returning a value or NaN.
- Session.CheckModelExists: the `catch` of transcribe/viewModel.ts:123-126 also sends the user to setup when `path.appLocalDataDir`, `fs.exists` or `path.join` rejects; the model takes `onDisk` and `join` as total functions, so only a failed listing leads there.
- Cli.IsCliDetected: `env::args()` panics when an argument is not valid Unicode; the model's arguments are strings, so that panic is not modelled.
- The Rust `as_srt`, `as_vtt`, `as_text` and `model::transcribe` live in the `vibe` crate, which is not part of this model; the renderers are opaque and the transcription's `unwrap` panic is not modelled.
- clap's argument parsing, `eprintln!`/`println!`, the `std::fs::write` error message and `process::exit` are I/O; `Cli.Outputs` returns the printed text, the file write and the warning count instead.
- `Cli.ReportedSeconds` and `Cli.ReportedSecondsAsWritten` use exact reals, not `f64`, and leave out the `{:.1}` rounding of the message.
- Local storage: preferences stored by an earlier run are not modelled; the constructors describe a first start, and each field is the value the hook holds.
- The theme effect (`data-theme`) and the `i18n.changeLanguage` effect of Preference.tsx are DOM and i18n calls with no state of the model.
- The `open` toggle of Params.tsx is presentation state only.
- LanguageInput's select value and `onChange` (code against name) and the group names are presentation.
- `Array.prototype.sort` is modelled as a stable insertion sort on values; the engine's algorithm and the in-place update are not modelled, only the sorted permutation it must produce.
- On macOS `handleDeepLinks` registers an `onOpenUrl` callback that pushes into `newFiles` after the files were already set; `Session.TranscriptionSession.DeepLinks` models the Windows and Linux path, where the links are known at once.
- The handlers read `files` through a stale closure in React; the model reads the current field.
- `Session.TranscriptionSession.BeginTranscribe` returns no request when there is no file, where the source throws inside its `try`; `Session.Run` then passes the thrown error, a parameter since its wording belongs to the webview's JavaScript engine, to `FinishTranscribe`, which is how the source continues.
- Navigation, the error dialog, the sound, the window focus and backend calls are returned as values (`Navigation`, `Effect`, `Request`, the booleans of the preference effects), not performed.
- `Preference.Preferences.ResetOptions` states the nine fields it sets in its ensures and leaves the others to its field-by-field modifies frame, rather than as one `Reset` of a snapshot; `Preference.ResetRestoresDefaults` states the same on values.
- `TextArea.Rendered` does not name the error kind of a failing subtitle rendering; `TextArea.RenderedFails` states when it fails.
- Copying the transcript to the clipboard (TextArea.tsx:46) is a browser call.

## Findings

| source | as written | input that shows it | evidently intended | confidence | as-written member | corrected member |
|---|---|---|---|---|---|---|
| desktop/src-tauri/src/cli.rs:167-170 | the completion message reports `elapsed.as_secs_f64() + elapsed.subsec_nanos() as f64 * 1e-9`, but `as_secs_f64` already includes the sub-second part, so the fraction is counted twice | an elapsed time of 1 s and 500 000 000 ns is reported as 2.0 s instead of 1.5 s | `elapsed.as_secs_f64()` alone | high, not executed | Cli.ReportedTwiceTheFraction | Cli.ReportedSeconds |
