/** The fixed transform-instruction lists, grouped by the stage that applies
    them. They are read-only configuration. */
module Rules {

  /** Applied to the initial utterances to form the base utterances. */
  const TransformPhrasesBase: seq<string> := [
    "sound more casual and use half the words",
    "use one to three words"
  ]

  /** Applied to the base utterances whatever the media type. */
  const TransformPhrasesAll: seq<string> := [
    "flip bigrams or trigrams",
    "swap common synonyms"
  ]

  /** Applied to the base utterances of a voice run. */
  const TransformPhrasesVoice: seq<string> := [
    "introduce common speech recognition mistranslations"
  ]

  /** Applied to the base utterances of any run that is not a voice run. */
  const TransformPhrasesText: seq<string> := [
    "introduce common spelling mistakes",
    "introduce common emojis"
  ]

  /** The media type that selects the voice rules; every other value selects
      the text rules. */
  const VoiceMediaType := "voice"

  /** Defaults of the top-level entry point. */
  const DefaultInitQuantity := 10
  const DefaultMediaType := VoiceMediaType

  /** The media-specific rules a run with `mediaType` applies. */
  function MediaRules(mediaType: string): seq<string>
  {
    if mediaType == VoiceMediaType then TransformPhrasesVoice else TransformPhrasesText
  }
}
