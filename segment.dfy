/** The segment record shared by the transcriber, the translator glue and the SRT writer. */
module Segments {

  /**
   * One utterance: the dictionary `{'text': ..., 'start': ..., 'end': ...}`
   * with times in seconds, kept as exact reals.
   */
  datatype Segment = Segment(text: string, start: real, end: real)
}
