/**
  The transcription session of desktop/src/pages/home/viewModel.ts and
  desktop/src/pages/transcribe/viewModel.ts. Both view models keep the same state (the
  files, the streamed segments, the progress, the loading and aborting flags and the abort
  ref) and handle the same events; the second adds openFolder. Dialogs, the file system,
  the backend and the window are parameters; what the handlers ask of them is returned as
  effects.
*/
module Session {
  import opened Wrappers
  import opened Strings
  import opened Segments
  import Preference

  /** NamedPath: a file's display name and its path. */
  datatype NamedPath = NamedPath(name: string, path: string)

  /** A file as the open dialog returns it: the name may be missing. */
  datatype PickedFile = PickedFile(name: Option<string>, path: string)

  /** Where a handler sends the user. */
  datatype Navigation = ToBatch(files: seq<NamedPath>) | ToSetup

  /** What the end of a transcription asks of the window. */
  datatype Effect = ShowError(log: string) | PlaySound | FocusWindow

  /** The request handed to the backend: the first file, the model path, the model options spread in. */
  datatype Request = Request(path: string, modelPath: Option<string>, options: Preference.ModelOptions)

  /** Batch navigation happens exactly when more than one file was chosen. */
  function BatchIfMany(newFiles: seq<NamedPath>): (r: Option<Navigation>)
    ensures r.Some? <==> |newFiles| > 1
    ensures r.Some? ==> r.value == ToBatch(newFiles)
  {
    if |newFiles| > 1 then Some(ToBatch(newFiles)) else None
  }

  /** The named paths of a dialog selection, a missing name read as empty. */
  function NamedOf(selected: seq<PickedFile>): (r: seq<NamedPath>)
    ensures |r| == |selected|
    ensures forall i :: 0 <= i < |r| ==> r[i].path == selected[i].path && r[i].name == selected[i].name.GetOr("")
  {
    seq(|selected|, i requires 0 <= i < |selected| => NamedPath(selected[i].name.GetOr(""), selected[i].path))
  }

  /** The segments after a stream of `new_segment` events: appended in arrival order. */
  function Streamed(start: Option<seq<Segment>>, payloads: seq<Segment>): Option<seq<Segment>>
  {
    if payloads == [] then start
    else Some(Streamed(start, payloads[..|payloads| - 1]).GetOr([]) + [payloads[|payloads| - 1]])
  }

  /** From no segments the stream is exactly the payloads; otherwise they follow what was there. */
  lemma {:induction false} StreamedAppends(start: Option<seq<Segment>>, payloads: seq<Segment>)
    ensures payloads != [] ==> Streamed(start, payloads) == Some(start.GetOr([]) + payloads)
    ensures payloads == [] ==> Streamed(start, payloads) == start
  {
    if payloads != [] {
      var init := payloads[..|payloads| - 1];
      StreamedAppends(start, init);
      if init == [] {
        assert start.GetOr([]) + init == start.GetOr([]);
      }
      assert Streamed(start, init).GetOr([]) == start.GetOr([]) + init;
      assert init + [payloads[|payloads| - 1]] == payloads;
      assert start.GetOr([]) + init + [payloads[|payloads| - 1]] == start.GetOr([]) + payloads;
    }
  }

  /**
    openFolder: the first file's path with the first occurrence of its name removed; nothing
    is opened without a file or when that leaves the empty string.
  */
  function FolderToOpen(files: seq<NamedPath>): (r: Option<string>)
    ensures files == [] ==> r.None?
    ensures r.Some? ==> r.value != "" && r.value == ReplaceFirst(files[0].path, files[0].name, "")
    ensures files != [] && ReplaceFirst(files[0].path, files[0].name, "") != "" ==> r.Some?
  {
    if files == [] then None
    else
      var folder := ReplaceFirst(files[0].path, files[0].name, "");
      if folder != "" then Some(folder) else None
  }

  /** A path ending in the file's name, which does not occur earlier, opens the directory part. */
  lemma FolderOfFile(dir: string, name: string)
    requires name != ""
    requires forall j :: 0 <= j < |dir| ==> !OccursAt(dir + name, name, j)
    requires dir != ""
    ensures FolderToOpen([NamedPath(name, dir + name)]) == Some(dir)
  {
    var s := dir + name;
    assert OccursAt(s, name, |dir|) by {
      assert s[|dir|..|dir| + |name|] == name;
    }
    assert IndexOf(s, name) == Some(|dir|);
    assert s[..|dir|] == dir;
    assert s[|dir| + |name|..] == [];
    assert ReplaceFirst(s, name, "") == s[..|dir|] + "" + s[|dir| + |name|..];
    assert s[..|dir|] + "" + s[|dir| + |name|..] == dir;
  }

  /** A name that also occurs inside the directory is cut there, not at the end. */
  lemma FolderCutsEarlierOccurrence()
    ensures FolderToOpen([NamedPath("a", "/a/a")]) == Some("//a")
  {
    var s := "/a/a";
    assert s[0] == '/' && s[1] == 'a';
    assert s[0..1] == [s[0]];
    assert !OccursAt(s, "a", 0);
    assert s[1..2] == [s[1]];
    assert OccursAt(s, "a", 1);
    assert IndexOf(s, "a") == Some(1);
    assert s[..1] + "" + s[2..] == "//a";
  }

  /** A directory entry listed by `ls`; the name may be missing. */
  datatype DirEntry = DirEntry(name: Option<string>)

  /** What checkModelExists decides. */
  datatype ModelCheck = GoToSetup | SetModelPath(path: string) | KeepModel

  predicate IsModelFile(e: DirEntry) {
    e.name.Some? && |e.name.value| >= 4 && e.name.value[|e.name.value| - 4..] == ".bin"
  }

  /** The model files of a listing, in listing order. */
  function ModelFiles(entries: seq<DirEntry>): (r: seq<DirEntry>)
    ensures |r| <= |entries|
    ensures forall e :: e in r <==> e in entries && IsModelFile(e)
    ensures r != [] ==> exists k :: 0 <= k < |entries| && entries[k] == r[0] && forall j :: 0 <= j < k ==> !IsModelFile(entries[j])
  {
    if entries == [] then []
    else if IsModelFile(entries[0]) then [entries[0]] + ModelFiles(entries[1..])
    else ModelFiles(entries[1..])
  }

  /**
    checkModelExists: a failed listing or no model file (unless setup was skipped) leads to
    the setup page; a model path that is missing, empty or not on disk is replaced by the
    first model file under the data directory; otherwise nothing changes.
  */
  function CheckModelExists(listing: Option<seq<DirEntry>>, configPath: string, skippedSetup: bool,
                            modelPath: Option<string>, onDisk: string -> bool, join: (string, string) -> string)
    : (r: ModelCheck)
    ensures listing.None? ==> r == GoToSetup
    ensures r == GoToSetup <==> listing.None? || (ModelFiles(listing.value) == [] && !skippedSetup)
    ensures listing.Some? && ModelFiles(listing.value) == [] ==> (r == GoToSetup <==> !skippedSetup) && !r.SetModelPath?
    ensures r.SetModelPath? <==>
      listing.Some? && ModelFiles(listing.value) != [] && (modelPath.None? || modelPath.value == "" || !onDisk(modelPath.value))
    ensures r.SetModelPath? ==>
      (listing.Some? && ModelFiles(listing.value) != [] && IsModelFile(ModelFiles(listing.value)[0])
       && r.path == join(configPath, ModelFiles(listing.value)[0].name.value))
  {
    match listing
    case None => GoToSetup
    case Some(entries) =>
      var models := ModelFiles(entries);
      if models == [] then (if !skippedSetup then GoToSetup else KeepModel)
      else if modelPath.None? || modelPath.value == "" || !onDisk(modelPath.value) then
        assert models[0] in models;
        SetModelPath(join(configPath, models[0].name.value))
      else KeepModel
  }

  /** A model path chosen by the check exists whenever the joined path does: a second check keeps it. */
  lemma CheckSettles(listing: Option<seq<DirEntry>>, configPath: string, skippedSetup: bool,
                     modelPath: Option<string>, onDisk: string -> bool, join: (string, string) -> string)
    requires CheckModelExists(listing, configPath, skippedSetup, modelPath, onDisk, join).SetModelPath?
    requires var p := CheckModelExists(listing, configPath, skippedSetup, modelPath, onDisk, join).path;
      p != "" && onDisk(p)
    ensures var p := CheckModelExists(listing, configPath, skippedSetup, modelPath, onDisk, join).path;
      CheckModelExists(listing, configPath, skippedSetup, Some(p), onDisk, join) == KeepModel
  {
  }

  /** An x86 feature as the backend reports it. */
  datatype Feature = Feature(name: string, enabled: bool, support: bool)

  /** The names of the features the build uses and the CPU lacks, in report order. */
  function Unsupported(features: seq<Feature>): (r: seq<string>)
    ensures |r| <= |features|
    ensures forall n :: n in r <==> exists f :: f in features && f.enabled && !f.support && f.name == n
  {
    if features == [] then []
    else
      (if features[0].enabled && !features[0].support then [features[0].name] else [])
        + Unsupported(features[1..])
  }

  /** No feature is reported unsupported exactly when the CPU has every feature the build uses. */
  lemma UnsupportedEmpty(features: seq<Feature>)
    ensures Unsupported(features) == [] <==> forall f :: f in features ==> !(f.enabled && !f.support)
  {
    if Unsupported(features) != [] {
      assert Unsupported(features)[0] in Unsupported(features);
    }
  }

  /** CheckCpuAndInit of the home page: the listeners are set up only on a CPU with every feature it uses. */
  function InitializesListeners(features: Option<seq<Feature>>): (r: bool)
    ensures r <==> features.None? || forall f :: f in features.value ==> !(f.enabled && !f.support)
  {
    if features.None? then true
    else
      UnsupportedEmpty(features.value);
      Unsupported(features.value) == []
  }

  /** The state of a transcription page. */
  class TranscriptionSession {
    var files: seq<NamedPath>
    var segments: Option<seq<Segment>>
    var progress: Option<real>
    var loading: bool
    var isAborting: bool
    /** abortRef.current */
    var abortRequested: bool
    /** The file the audio player was loaded with. */
    var audio: Option<string>

    /** A page folder with the files the router passed, if any. */
    constructor(routed: Option<seq<NamedPath>>)
      ensures files == routed.GetOr([]) && segments.None? && progress == Some(0.0)
      ensures !loading && !isAborting && !abortRequested && audio.None?
    {
      files := routed.GetOr([]);
      segments := None;
      progress := Some(0.0);
      loading, isAborting, abortRequested := false, false, false;
      audio := None;
    }

    /** onFilesChanged: a single file is loaded into the player. */
    method OnFilesChanged()
      modifies this
      ensures audio == if |files| == 1 then Some(files[0].path) else old(audio)
      ensures files == old(files) && segments == old(segments) && progress == old(progress)
      ensures loading == old(loading) && isAborting == old(isAborting) && abortRequested == old(abortRequested)
    {
      if |files| == 1 {
        audio := Some(files[0].path);
      }
    }

    /** A `transcribe_progress` event: kept only when it lies in [0, 100]. */
    method OnProgress(value: real)
      modifies this
      ensures progress == if 0.0 <= value <= 100.0 then Some(value) else old(progress)
      ensures files == old(files) && segments == old(segments) && audio == old(audio)
      ensures loading == old(loading) && isAborting == old(isAborting) && abortRequested == old(abortRequested)
    {
      if value >= 0.0 && value <= 100.0 {
        progress := Some(value);
      }
    }

    /** A `new_segment` event: the payload goes after every segment received so far. */
    method OnNewSegment(payload: Segment)
      modifies this
      ensures segments == Some(old(segments).GetOr([]) + [payload])
      ensures segments == Streamed(old(segments), [payload])
      ensures files == old(files) && progress == old(progress) && audio == old(audio)
      ensures loading == old(loading) && isAborting == old(isAborting) && abortRequested == old(abortRequested)
    {
      assert [payload][..0] == [];
      assert [] + [payload] == [payload];
      segments := Some(if segments.Some? then segments.value + [payload] else [payload]);
    }

    /** onAbort: both flags go up (and the backend is told); nothing here lowers the ref again. */
    method OnAbort()
      modifies this
      ensures isAborting && abortRequested
      ensures files == old(files) && segments == old(segments) && progress == old(progress)
      ensures loading == old(loading) && audio == old(audio)
    {
      isAborting := true;
      abortRequested := true;
    }

    /**
      selectFiles: a cancelled dialog changes nothing; otherwise the selection replaces the
      files, even when it is empty, and more than one file goes to the batch page.
    */
    method SelectFiles(selected: Option<seq<PickedFile>>) returns (nav: Option<Navigation>)
      modifies this
      ensures selected.None? ==> files == old(files) && nav.None?
      ensures selected.Some? ==> files == NamedOf(selected.value) && nav == BatchIfMany(files)
      ensures segments == old(segments) && progress == old(progress) && audio == old(audio)
      ensures loading == old(loading) && isAborting == old(isAborting) && abortRequested == old(abortRequested)
    {
      nav := None;
      if selected.Some? {
        var picked := selected.value;
        var newFiles: seq<NamedPath> := [];
        for i := 0 to |picked|
          invariant newFiles == NamedOf(picked[..i])
        {
          newFiles := newFiles + [NamedPath(picked[i].name.GetOr(""), picked[i].path)];
        }
        assert picked[..|picked|] == picked;
        files := newFiles;
        nav := BatchIfMany(newFiles);
      }
    }

    /** handleDrop: the dropped paths, resolved in order, replace the files. */
    method Drop(paths: seq<string>, pathToNamedPath: string -> NamedPath) returns (nav: Option<Navigation>)
      modifies this
      ensures |files| == |paths| && forall i :: 0 <= i < |paths| ==> files[i] == pathToNamedPath(paths[i])
      ensures nav == BatchIfMany(files)
      ensures segments == old(segments) && progress == old(progress) && audio == old(audio)
      ensures loading == old(loading) && isAborting == old(isAborting) && abortRequested == old(abortRequested)
    {
      var newFiles: seq<NamedPath> := [];
      for i := 0 to |paths|
        invariant |newFiles| == i && forall k :: 0 <= k < i ==> newFiles[k] == pathToNamedPath(paths[k])
      {
        var file := pathToNamedPath(paths[i]);
        newFiles := newFiles + [NamedPath(file.name, file.path)];
      }
      files := newFiles;
      nav := BatchIfMany(newFiles);
    }

    /**
      handleDeepLinks on Windows and Linux: the links the backend reports are appended after
      the files already there; batch navigation looks at the new files alone.
    */
    method DeepLinks(urls: seq<string>, pathToNamedPath: string -> NamedPath) returns (nav: Option<Navigation>)
      modifies this
      ensures |files| == |old(files)| + |urls| && files[..|old(files)|] == old(files)
      ensures forall i :: 0 <= i < |urls| ==> files[|old(files)| + i] == pathToNamedPath(urls[i])
      ensures nav == BatchIfMany(files[|old(files)|..])
      ensures segments == old(segments) && progress == old(progress) && audio == old(audio)
      ensures loading == old(loading) && isAborting == old(isAborting) && abortRequested == old(abortRequested)
    {
      var newFiles: seq<NamedPath> := [];
      for i := 0 to |urls|
        invariant |newFiles| == i && forall k :: 0 <= k < i ==> newFiles[k] == pathToNamedPath(urls[k])
      {
        newFiles := newFiles + [pathToNamedPath(urls[i])];
      }
      files := files + newFiles;
      assert files[|old(files)|..] == newFiles;
      nav := BatchIfMany(newFiles);
    }

    /** openFolder: looks at the files and changes nothing. */
    method OpenFolder() returns (folder: Option<string>)
      ensures folder == FolderToOpen(files)
      ensures folder.Some? ==> files != [] && folder.value != ""
    {
      folder := FolderToOpen(files);
    }

    /**
      The start of transcribe: the old segments are dropped and loading begins. Without a
      file, reading `files[0].path` throws before anything is sent.
    */
    method BeginTranscribe(modelPath: Option<string>, options: Preference.ModelOptions) returns (request: Option<Request>)
      modifies this
      ensures segments.None? && loading
      ensures request.Some? <==> old(files) != []
      ensures request.Some? ==> request.value.path == old(files)[0].path
      ensures request.Some? ==> request.value.modelPath == modelPath && request.value.options == options
      ensures files == old(files) && progress == old(progress) && audio == old(audio)
      ensures isAborting == old(isAborting) && abortRequested == old(abortRequested)
    {
      segments := None;
      loading := true;
      request := if |files| > 0 then Some(Request(files[0].path, modelPath, options)) else None;
    }

    /**
      The end of transcribe, whatever the backend answered: the answer's segments on success,
      an error dialog on failure unless the user aborted; then, always, loading and aborting
      stop and progress is cleared; the sound and the focus follow only an un-aborted run.
    */
    method FinishTranscribe(outcome: Result<seq<Segment>, string>, soundOnFinish: bool, focusOnFinish: bool)
      returns (effects: seq<Effect>)
      modifies this
      ensures !loading && !isAborting && progress.None?
      ensures segments == if outcome.Success? then Some(outcome.value) else old(segments)
      ensures abortRequested == old(abortRequested) && files == old(files) && audio == old(audio)
      ensures abortRequested ==> effects == []
      ensures !abortRequested ==>
        (effects == (if outcome.Failure? then [ShowError(outcome.error)] else [])
          + (if soundOnFinish then [PlaySound] else [])
          + (if focusOnFinish then [FocusWindow] else []))
    {
      effects := [];
      match outcome {
        case Success(received) =>
          segments := Some(received);
        case Failure(error) =>
          if !abortRequested {
            effects := effects + [ShowError(error)];
            loading := false;
          }
      }
      loading := false;
      isAborting := false;
      progress := None;
      if !abortRequested {
        if soundOnFinish {
          effects := effects + [PlaySound];
        }
        if focusOnFinish {
          effects := effects + [FocusWindow];
        }
      }
    }
  }

  /**
    A whole run: begin, then, when a request was sent, any number of segment events, an
    abort or not, and the backend's answer. Without a file nothing is sent: reading
    `files[0].path` throws at once, with the message `thrown`, and the run finishes through
    the catch and finally blocks before any event can arrive. Once aborted the run ends
    silently; either way the flags are down and progress cleared.
  */
  method Run(session: TranscriptionSession, modelPath: Option<string>, options: Preference.ModelOptions,
             payloads: seq<Segment>, abort: bool, outcome: Result<seq<Segment>, string>, thrown: string,
             soundOnFinish: bool, focusOnFinish: bool)
    returns (effects: seq<Effect>)
    modifies session
    ensures !session.loading && !session.isAborting && session.progress.None?
    ensures session.abortRequested == (old(session.abortRequested) || (abort && old(session.files) != []))
    ensures session.abortRequested ==> effects == []
    ensures old(session.files) != [] ==>
      session.segments == if outcome.Success? then Some(outcome.value) else Streamed(None, payloads)
    ensures old(session.files) == [] ==> session.segments.None?
    ensures old(session.files) == [] && !session.abortRequested ==>
      effects == [ShowError(thrown)] + (if soundOnFinish then [PlaySound] else []) + (if focusOnFinish then [FocusWindow] else [])
  {
    var request := session.BeginTranscribe(modelPath, options);
    if request.None? {
      effects := session.FinishTranscribe(Failure(thrown), soundOnFinish, focusOnFinish);
      return;
    }
    for i := 0 to |payloads|
      invariant session.segments == Streamed(None, payloads[..i])
      invariant session.abortRequested == old(session.abortRequested)
    {
      assert payloads[..i + 1][..i] == payloads[..i];
      session.OnNewSegment(payloads[i]);
    }
    assert payloads[..|payloads|] == payloads;
    if abort {
      session.OnAbort();
    }
    effects := session.FinishTranscribe(outcome, soundOnFinish, focusOnFinish);
  }
}
