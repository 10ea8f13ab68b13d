/**
  desktop/src/components/Params.tsx: the advanced model options. Every edit builds a new
  record by spreading the old one and replacing one field; the prompt is cut to 1024
  characters. `parseInt` and `parseFloat` are parameters.
*/
module Params {
  import opened Wrappers

  /** A JavaScript number as the parsers return it: a value or NaN. */
  datatype Number = Finite(value: real) | NotANumber

  /** LocalModelArgs. */
  datatype LocalModelArgs = LocalModelArgs(
    lang: Option<string>,
    verbose: bool,
    nThreads: Option<Number>,
    initPrompt: Option<string>,
    temperature: Option<Number>)

  /** The most characters of initial prompt the model is given. */
  const PromptLimit: nat := 1024

  /** `value.slice(0, 1024)`. */
  function Truncated(value: string): (r: string)
    ensures |r| <= PromptLimit
    ensures |r| <= |value| && r == value[..|r|]
    ensures |value| <= PromptLimit ==> r == value
    ensures |value| > PromptLimit ==> |r| == PromptLimit
  {
    if |value| <= PromptLimit then value else value[..PromptLimit]
  }

  /** The prompt textarea: stores the typed value cut to the limit, and nothing else changes. */
  function EditPrompt(args: LocalModelArgs, typed: string): (r: LocalModelArgs)
    ensures r.initPrompt.Some? && |r.initPrompt.value| <= PromptLimit
    ensures |r.initPrompt.value| <= |typed| && r.initPrompt.value == typed[..|r.initPrompt.value|]
    ensures |typed| <= PromptLimit ==> r.initPrompt == Some(typed)
    ensures r.lang == args.lang && r.verbose == args.verbose && r.nThreads == args.nThreads
      && r.temperature == args.temperature
  {
    args.(initPrompt := Some(Truncated(typed)))
  }

  /** The threads input: stores `parseInt` of the typed value, and nothing else changes. */
  function EditThreads(args: LocalModelArgs, typed: string, parseInt: string -> Number): (r: LocalModelArgs)
    ensures r.nThreads == Some(parseInt(typed))
    ensures r.lang == args.lang && r.verbose == args.verbose && r.initPrompt == args.initPrompt
      && r.temperature == args.temperature
  {
    args.(nThreads := Some(parseInt(typed)))
  }

  /** The temperature input: stores `parseFloat` of the typed value, and nothing else changes. */
  function EditTemperature(args: LocalModelArgs, typed: string, parseFloat: string -> Number): (r: LocalModelArgs)
    ensures r.temperature == Some(parseFloat(typed))
    ensures r.lang == args.lang && r.verbose == args.verbose && r.initPrompt == args.initPrompt
      && r.nThreads == args.nThreads
  {
    args.(temperature := Some(parseFloat(typed)))
  }

  /** The counter beside the prompt: characters still available, a missing prompt counting as empty. */
  function Leftover(args: LocalModelArgs): (r: int)
    ensures r <= PromptLimit
    ensures args.initPrompt.None? ==> r == PromptLimit
    ensures args.initPrompt.Some? ==> r + |args.initPrompt.value| == PromptLimit
  {
    PromptLimit - (if args.initPrompt.Some? then |args.initPrompt.value| else 0)
  }

  /** After any prompt edit the counter is non-negative and counts what the typed text left over. */
  lemma LeftoverAfterEdit(args: LocalModelArgs, typed: string)
    ensures 0 <= Leftover(EditPrompt(args, typed))
    ensures Leftover(EditPrompt(args, typed)) == if |typed| <= PromptLimit then PromptLimit - |typed| else 0
  {
  }

  /** Editing the prompt twice with the same text is editing it once. */
  lemma EditPromptIdempotent(args: LocalModelArgs, typed: string)
    ensures EditPrompt(EditPrompt(args, typed), typed) == EditPrompt(args, typed)
  {
  }

  /** Typing the stored prompt back changes nothing. */
  lemma EditPromptStable(args: LocalModelArgs, typed: string)
    ensures EditPrompt(args, EditPrompt(args, typed).initPrompt.value) == EditPrompt(args, typed)
  {
  }

  /** Edits of different fields do not interfere: their order does not matter. */
  lemma EditsCommute(args: LocalModelArgs, prompt: string, threads: string, temperature: string,
                     parseInt: string -> Number, parseFloat: string -> Number)
    ensures EditThreads(EditPrompt(args, prompt), threads, parseInt)
      == EditPrompt(EditThreads(args, threads, parseInt), prompt)
    ensures EditTemperature(EditPrompt(args, prompt), temperature, parseFloat)
      == EditPrompt(EditTemperature(args, temperature, parseFloat), prompt)
    ensures EditTemperature(EditThreads(args, threads, parseInt), temperature, parseFloat)
      == EditThreads(EditTemperature(args, temperature, parseFloat), threads, parseInt)
  {
  }
}
