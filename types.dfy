/** The record and union types shared by the components. */
module Types {

  /**
   * One level of the vocabulary game: a union discriminated by its `type`
   * tag, one constructor per kind of level.
   */
  datatype GameLevel =
    | ScrambleLevel(id: nat, word: string, scrambled: string, hint: string)
    | CompleteSentenceLevel(id: nat, sentenceParts: (string, string), answer: string, hint: string)

  /** Who spoke a transcribed line. */
  datatype Speaker = User | Model

  /** One line of the live-conversation transcript. */
  datatype TranscriptionEntry = TranscriptionEntry(speaker: Speaker, text: string)
}
