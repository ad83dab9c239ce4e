/** Choice of the system prompt from the sentiment analyser's compound score. */
module Prompt {

  const SUPPORTIVE_PROMPT: string := "You are MikGPT-V4, providing supportive responses."
  const ENTHUSIASTIC_PROMPT: string := "You are MikGPT-V4, engaging enthusiastically."
  const FRIENDLY_PROMPT: string := "You are MikGPT-V4, a friendly AI assistant."

  /** Scores strictly below this are negative enough for the supportive prompt. */
  const NEGATIVE_THRESHOLD: real := -0.5
  /** Scores strictly above this are positive enough for the enthusiastic prompt. */
  const POSITIVE_THRESHOLD: real := 0.5

  /** The three tones the handler can set. */
  datatype Tone = Supportive | Friendly | Enthusiastic

  /** The fixed prompt text of each tone. */
  function PromptFor(t: Tone): string {
    match t
    case Supportive => SUPPORTIVE_PROMPT
    case Friendly => FRIENDLY_PROMPT
    case Enthusiastic => ENTHUSIASTIC_PROMPT
  }

  /** Reference classification by interval: the closed interval
      [NEGATIVE_THRESHOLD, POSITIVE_THRESHOLD] is neutral, everything below it is
      negative and everything above it positive. */
  function ToneOf(compound: real): Tone {
    if NEGATIVE_THRESHOLD <= compound <= POSITIVE_THRESHOLD then Friendly
    else if compound < 0.0 then Supportive
    else Enthusiastic
  }

  /** Position of a tone on the negative-to-positive axis. */
  function Rank(t: Tone): int {
    match t
    case Supportive => -1
    case Friendly => 0
    case Enthusiastic => 1
  }

  /** The handler's if-chain: test the negative threshold first, then the
      positive one, and fall back to the friendly prompt. Both comparisons are
      strict, so the thresholds themselves are neutral. */
  function SelectPrompt(compound: real): (p: string)
    ensures p == SUPPORTIVE_PROMPT <==> compound < NEGATIVE_THRESHOLD
    ensures p == ENTHUSIASTIC_PROMPT <==> compound > POSITIVE_THRESHOLD
    ensures p == FRIENDLY_PROMPT <==> NEGATIVE_THRESHOLD <= compound <= POSITIVE_THRESHOLD
  {
    if compound < NEGATIVE_THRESHOLD then SUPPORTIVE_PROMPT
    else if compound > POSITIVE_THRESHOLD then ENTHUSIASTIC_PROMPT
    else FRIENDLY_PROMPT
  }

  /** The three prompt texts differ, so the chosen text tells which branch ran. */
  lemma PromptsDistinct()
    ensures SUPPORTIVE_PROMPT != ENTHUSIASTIC_PROMPT
    ensures SUPPORTIVE_PROMPT != FRIENDLY_PROMPT
    ensures ENTHUSIASTIC_PROMPT != FRIENDLY_PROMPT
  {
  }

  /** The if-chain agrees with the interval classification on every score, and
      the prompt determines the tone. */
  lemma SelectPromptMatchesTone(compound: real, t: Tone)
    ensures SelectPrompt(compound) == PromptFor(t) <==> t == ToneOf(compound)
  {
  }

  /** A higher score never selects a more negative tone. */
  lemma ToneMonotone(x: real, y: real)
    requires x <= y
    ensures Rank(ToneOf(x)) <= Rank(ToneOf(y))
  {
  }

  /** The boundary values: both thresholds are neutral, anything beyond them is not. */
  lemma ThresholdsAreNeutral()
    ensures SelectPrompt(-0.5) == FRIENDLY_PROMPT
    ensures SelectPrompt(0.5) == FRIENDLY_PROMPT
    ensures SelectPrompt(0.50001) == ENTHUSIASTIC_PROMPT
    ensures SelectPrompt(-0.50001) == SUPPORTIVE_PROMPT
  {
  }
}
