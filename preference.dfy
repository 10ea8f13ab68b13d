/**
  desktop/src/providers/Preference.tsx: the user's persisted preferences, their defaults,
  resetting them, and the effects that react to a change of interface language and of the
  graphics preference. Local storage is the object's own fields; the i18n tables, the
  writing direction of the interface language, the platform and the default LLM settings
  are parameters.
*/
module Preference {
  import opened Wrappers
  import opened FormatSelect

  /** The LLM settings, whose shape lib/llm defines; they are only stored and compared here. */
  type LlmConfig = map<string, string>

  /** ModelOptions. `lang` is absent when a language name has no whisper code. */
  datatype ModelOptions = ModelOptions(
    lang: Option<string>,
    verbose: bool,
    nThreads: Option<int>,
    initPrompt: Option<string>,
    temperature: Option<real>,
    translate: Option<bool>,
    maxTextCtx: Option<int>,
    wordTimestamps: Option<bool>,
    maxSentenceLen: Option<int>)

  /** FfmpegOptions. */
  datatype FfmpegOptions = FfmpegOptions(normalizeLoudness: bool, customCommand: Option<string>)

  /** Every persisted preference, as one value. */
  datatype PrefState = PrefState(
    displayLanguage: string,
    soundOnFinish: bool,
    focusOnFinish: bool,
    modelPath: Option<string>,
    skippedSetup: bool,
    textAreaDirection: string,
    textFormat: string,
    modelOptions: ModelOptions,
    theme: string,
    storeRecordInDocuments: bool,
    gpuDevice: int,
    highGraphicsPreference: bool,
    recognizeSpeakers: bool,
    maxSpeakers: int,
    diarizeThreshold: real,
    homeTabIndex: int,
    llmConfig: LlmConfig,
    ffmpegOptions: FfmpegOptions)

  /** defaultOptions.modelOptions. */
  const DefaultModelOptions: ModelOptions :=
    ModelOptions(Some("en"), false, Some(4), Some(""), Some(0.4), None, None, Some(false), Some(1))

  /** defaultOptions.ffmpegOptions. */
  const DefaultFfmpegOptions: FfmpegOptions := FfmpegOptions(false, None)

  /** defaultOptions.maxSpeakers and defaultOptions.diarizeThreshold. */
  const DefaultMaxSpeakers: int := 5
  const DefaultDiarizeThreshold: real := 0.5

  /** The text format stored when nothing is: not one of the three formats. */
  const DefaultTextFormat: string := "pdf"

  /**
    The value of every preference on a first start: defaultOptions where a key uses it, the
    literal default of its storage key otherwise.
  */
  function Defaults(i18nLanguage: string, systemIsDark: bool, ollama: LlmConfig): (r: PrefState)
    ensures r.displayLanguage == i18nLanguage && r.llmConfig == ollama
    ensures r.theme == (if systemIsDark then "dark" else "light")
    ensures Parse(r.textFormat).None?
  {
    PrefState(
      displayLanguage := i18nLanguage,
      soundOnFinish := true,
      focusOnFinish := true,
      modelPath := None,
      skippedSetup := false,
      textAreaDirection := "ltr",
      textFormat := DefaultTextFormat,
      modelOptions := DefaultModelOptions,
      theme := if systemIsDark then "dark" else "light",
      storeRecordInDocuments := true,
      gpuDevice := 0,
      highGraphicsPreference := false,
      recognizeSpeakers := false,
      maxSpeakers := DefaultMaxSpeakers,
      diarizeThreshold := DefaultDiarizeThreshold,
      homeTabIndex := 1,
      llmConfig := ollama,
      ffmpegOptions := DefaultFfmpegOptions)
  }

  /** resetOptions: nine preferences back to defaultOptions. */
  function Reset(s: PrefState, ollama: LlmConfig): (r: PrefState)
  {
    s.(soundOnFinish := true,
       focusOnFinish := true,
       modelOptions := DefaultModelOptions,
       ffmpegOptions := DefaultFfmpegOptions,
       recognizeSpeakers := false,
       maxSpeakers := DefaultMaxSpeakers,
       diarizeThreshold := DefaultDiarizeThreshold,
       storeRecordInDocuments := true,
       llmConfig := ollama)
  }

  /** The nine reset preferences take their first-start values; the other nine are kept. */
  lemma ResetRestoresDefaults(s: PrefState, i18nLanguage: string, systemIsDark: bool, ollama: LlmConfig)
    ensures var r := Reset(s, ollama); var d := Defaults(i18nLanguage, systemIsDark, ollama);
      && r.soundOnFinish == d.soundOnFinish && r.focusOnFinish == d.focusOnFinish
      && r.modelOptions == d.modelOptions && r.ffmpegOptions == d.ffmpegOptions
      && r.recognizeSpeakers == d.recognizeSpeakers && r.maxSpeakers == d.maxSpeakers
      && r.diarizeThreshold == d.diarizeThreshold && r.storeRecordInDocuments == d.storeRecordInDocuments
      && r.llmConfig == d.llmConfig
    ensures var r := Reset(s, ollama);
      && r.displayLanguage == s.displayLanguage && r.modelPath == s.modelPath
      && r.skippedSetup == s.skippedSetup && r.textAreaDirection == s.textAreaDirection
      && r.textFormat == s.textFormat && r.theme == s.theme && r.gpuDevice == s.gpuDevice
      && r.highGraphicsPreference == s.highGraphicsPreference && r.homeTabIndex == s.homeTabIndex
  {
  }

  /** Resetting twice is resetting once, and the first-start state is already reset. */
  lemma ResetIdempotent(s: PrefState, i18nLanguage: string, systemIsDark: bool, ollama: LlmConfig)
    ensures Reset(Reset(s, ollama), ollama) == Reset(s, ollama)
    ensures Reset(Defaults(i18nLanguage, systemIsDark, ollama), ollama) == Defaults(i18nLanguage, systemIsDark, ollama)
  {
  }

  /**
    setLanguageDefaults: when the display language has a non-empty name in the supported
    languages, the whisper code of that name becomes the model language (absent if the name
    has none) and the interface's writing direction becomes the text direction.
  */
  function LanguageDefaults(s: PrefState, supported: map<string, string>, whisper: map<string, string>, dir: string)
    : (r: PrefState)
  {
    var name := if s.displayLanguage in supported then supported[s.displayLanguage] else "";
    if name != "" then
      s.(modelOptions := s.modelOptions.(lang := if name in whisper then Some(whisper[name]) else None),
         textAreaDirection := dir)
    else s
  }

  /** An unsupported display language changes nothing; a supported one changes only the model language and direction. */
  lemma LanguageDefaultsScope(s: PrefState, supported: map<string, string>, whisper: map<string, string>, dir: string)
    ensures s.displayLanguage !in supported || supported[s.displayLanguage] == "" ==>
      LanguageDefaults(s, supported, whisper, dir) == s
    ensures s.displayLanguage in supported && supported[s.displayLanguage] != "" ==>
      var name := supported[s.displayLanguage];
      LanguageDefaults(s, supported, whisper, dir)
        == s.(modelOptions := s.modelOptions.(lang := if name in whisper then Some(whisper[name]) else None),
              textAreaDirection := dir)
  {
  }

  /** Applying the language defaults a second time changes nothing more. */
  lemma LanguageDefaultsIdempotent(s: PrefState, supported: map<string, string>, whisper: map<string, string>, dir: string)
    ensures LanguageDefaults(LanguageDefaults(s, supported, whisper, dir), supported, whisper, dir)
      == LanguageDefaults(s, supported, whisper, dir)
  {
  }

  /** The provider: its persisted preferences, the first-run flag and the two refs its effects share. */
  class Preferences {
    var displayLanguage: string
    var soundOnFinish: bool
    var focusOnFinish: bool
    var modelPath: Option<string>
    var skippedSetup: bool
    var textAreaDirection: string
    var textFormat: string
    var modelOptions: ModelOptions
    var theme: string
    var storeRecordInDocuments: bool
    var gpuDevice: int
    var highGraphicsPreference: bool
    var recognizeSpeakers: bool
    var maxSpeakers: int
    var diarizeThreshold: real
    var homeTabIndex: int
    var llmConfig: LlmConfig
    var ffmpegOptions: FfmpegOptions

    /** `prefs_first_localstorage_read`. */
    var isFirstRun: bool
    /** The ref set by whichever of the two guarded effects runs first. */
    var isMounted: bool
    /** The interface language the language effect last acted on. */
    var prevLanguage: string
    /** defaultOllamaConfig(), which resetOptions restores. */
    const ollama: LlmConfig

    function Snapshot(): PrefState
      reads this
    {
      PrefState(displayLanguage, soundOnFinish, focusOnFinish, modelPath, skippedSetup, textAreaDirection,
        textFormat, modelOptions, theme, storeRecordInDocuments, gpuDevice, highGraphicsPreference,
        recognizeSpeakers, maxSpeakers, diarizeThreshold, homeTabIndex, llmConfig, ffmpegOptions)
    }

    /** A first start: every preference at its default, the refs unset, the first-run flag up. */
    constructor(i18nLanguage: string, systemIsDark: bool, ollamaDefaults: LlmConfig)
      ensures Snapshot() == Defaults(i18nLanguage, systemIsDark, ollamaDefaults)
      ensures ollama == ollamaDefaults && isFirstRun && !isMounted && prevLanguage == i18nLanguage
    {
      var d := Defaults(i18nLanguage, systemIsDark, ollamaDefaults);
      displayLanguage, soundOnFinish, focusOnFinish, modelPath := d.displayLanguage, d.soundOnFinish, d.focusOnFinish, d.modelPath;
      skippedSetup, textAreaDirection, textFormat := d.skippedSetup, d.textAreaDirection, d.textFormat;
      modelOptions, theme, storeRecordInDocuments := d.modelOptions, d.theme, d.storeRecordInDocuments;
      gpuDevice, highGraphicsPreference, recognizeSpeakers := d.gpuDevice, d.highGraphicsPreference, d.recognizeSpeakers;
      maxSpeakers, diarizeThreshold, homeTabIndex := d.maxSpeakers, d.diarizeThreshold, d.homeTabIndex;
      llmConfig, ffmpegOptions := d.llmConfig, d.ffmpegOptions;
      ollama := ollamaDefaults;
      isFirstRun, isMounted, prevLanguage := true, false, i18nLanguage;
    }

    /** resetOptions: the nine setters in turn; no other field is written. */
    method ResetOptions()
      modifies this`soundOnFinish, this`focusOnFinish, this`modelOptions, this`ffmpegOptions
      modifies this`recognizeSpeakers, this`maxSpeakers, this`diarizeThreshold
      modifies this`storeRecordInDocuments, this`llmConfig
      ensures soundOnFinish && focusOnFinish && modelOptions == DefaultModelOptions
      ensures ffmpegOptions == DefaultFfmpegOptions && !recognizeSpeakers && maxSpeakers == DefaultMaxSpeakers
      ensures diarizeThreshold == DefaultDiarizeThreshold && storeRecordInDocuments && llmConfig == ollama
    {
      soundOnFinish, focusOnFinish, modelOptions, ffmpegOptions := true, true, DefaultModelOptions, DefaultFfmpegOptions;
      recognizeSpeakers, maxSpeakers, diarizeThreshold := false, DefaultMaxSpeakers, DefaultDiarizeThreshold;
      storeRecordInDocuments, llmConfig := true, ollama;
    }

    /** setLanguageDefaults (exposed as setLanguageDirections). */
    method SetLanguageDefaults(supported: map<string, string>, whisper: map<string, string>, dir: string)
      modifies this
      ensures Snapshot() == LanguageDefaults(old(Snapshot()), supported, whisper, dir)
      ensures isFirstRun == old(isFirstRun) && isMounted == old(isMounted) && prevLanguage == old(prevLanguage)
    {
      var name := if displayLanguage in supported then supported[displayLanguage] else "";
      if name != "" {
        modelOptions := modelOptions.(lang := if name in whisper then Some(whisper[name]) else None);
        textAreaDirection := dir;
      }
    }

    /** The direction setter. */
    method SetTextAreaDirection(direction: string)
      modifies this
      ensures Snapshot() == old(Snapshot()).(textAreaDirection := direction)
      ensures isFirstRun == old(isFirstRun) && isMounted == old(isMounted) && prevLanguage == old(prevLanguage)
    {
      textAreaDirection := direction;
    }

    /** The first effect: records that storage has been read once. */
    method FirstRunEffect()
      modifies this
      ensures !isFirstRun && Snapshot() == old(Snapshot())
      ensures isMounted == old(isMounted) && prevLanguage == old(prevLanguage)
    {
      isFirstRun := false;
    }

    /**
      The graphics-preference effect: on Windows, once the shared ref is set, it asks the
      backend for the preference; otherwise it only sets the ref.
    */
    method GpuPreferenceEffect(isWindows: bool) returns (invoked: bool)
      modifies this
      ensures invoked <==> old(isMounted) && isWindows
      ensures isMounted && Snapshot() == old(Snapshot())
      ensures isFirstRun == old(isFirstRun) && prevLanguage == old(prevLanguage)
    {
      if !isMounted || !isWindows {
        isMounted := true;
        return false;
      }
      return true;
    }

    /**
      The language effect, with the first-run flag as the render that scheduled it saw it:
      past the mount guard, it applies the language defaults when the interface language
      moved or on a first run, and remembers the language.
    */
    method LanguageEffect(i18nLanguage: string, firstRun: bool, supported: map<string, string>,
                          whisper: map<string, string>, dir: string) returns (applied: bool)
      modifies this
      ensures applied <==> old(isMounted) && (old(prevLanguage) != i18nLanguage || firstRun)
      ensures isMounted && isFirstRun == old(isFirstRun)
      ensures prevLanguage == if applied then i18nLanguage else old(prevLanguage)
      ensures Snapshot() == if applied then LanguageDefaults(old(Snapshot()), supported, whisper, dir) else old(Snapshot())
    {
      if !isMounted {
        isMounted := true;
        return false;
      }
      applied := prevLanguage != i18nLanguage || firstRun;
      if applied {
        prevLanguage := i18nLanguage;
        SetLanguageDefaults(supported, whisper, dir);
      }
    }

    /**
      Mounting runs the effects in declaration order. The graphics effect sets the shared
      ref first, so the language effect is already past its guard: on a first run the
      language defaults are applied at once, and no backend call is made.
    */
    method Mount(isWindows: bool, supported: map<string, string>, whisper: map<string, string>, dir: string)
      returns (gpuInvoked: bool, languageApplied: bool)
      requires !isMounted
      modifies this
      ensures !gpuInvoked && isMounted && !isFirstRun && prevLanguage == old(prevLanguage)
      ensures languageApplied == old(isFirstRun)
      ensures Snapshot() == if old(isFirstRun) then LanguageDefaults(old(Snapshot()), supported, whisper, dir) else old(Snapshot())
    {
      var firstRun := isFirstRun;
      FirstRunEffect();
      gpuInvoked := GpuPreferenceEffect(isWindows);
      languageApplied := LanguageEffect(prevLanguage, firstRun, supported, whisper, dir);
    }
  }
}
