/** The configuration constants the core reads (settings.py). */
module Settings {

  /** Number of texts sent to the translation model in one call. */
  const BatchSize: nat := 8

  /**
   * `BASE_DIR / "output"`. The install directory `BASE_DIR` is resolved at
   * start-up; the model represents it by the relative path below.
   */
  const OutputDir: string := "output"

  const TempDir: string := "output/temp"

  /** Default translation model identifier. */
  const TranslationModel: string := "facebook/m2m100_418M"

  /** Token limit handed to the translation model (used only by the model itself). */
  const MaxTranslationLength: nat := 512

  /** Default speech-recognition model size and device. */
  const WhisperModel: string := "base"
  const WhisperDevice: string := "cpu"

  /** Encoding of every SRT file written. */
  const SrtEncoding: string := "utf-8"
}
