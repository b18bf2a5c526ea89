/**
 * Speech-to-text wrapper (core/transcriber.py): the load-once memo of the
 * Whisper model, the pass-through `transcribe`, and `get_segments`, which
 * keeps only the text (stripped) and the timing of every recognised segment.
 */
module Transcriber {
  import opened Text
  import opened Wrappers
  import opened Segments
  import Settings

  /**
   * One entry of `result['segments']` as the recogniser reports it: text,
   * start and end, plus the other keys it carries (id, tokens,
   * probabilities, ...), which are not used.
   */
  datatype RawSegment = RawSegment(text: string, start: real, end: real, others: map<string, string>)

  /** The dictionary `transcribe` returns: the whole text, the segments and the language. */
  datatype TranscriptionResult = TranscriptionResult(text: string, segments: seq<RawSegment>, language: string)

  /** A loaded Whisper model: the size name and the device it was loaded for. */
  datatype WhisperModel = WhisperModel(name: string, device: string)

  /**
   * `model.transcribe(audio_path, language=...)` of the loaded model: the
   * result, or the message of the exception it raises.
   */
  type Recognizer = (WhisperModel, string, string) -> Result<TranscriptionResult, string>

  /** The dictionary `get_segments` builds for one raw segment: the stripped text and the unchanged timing. */
  function Normalize(raw: RawSegment): (r: Segment)
    ensures r.start == raw.start && r.end == raw.end
    ensures Strip(r.text) == r.text && (r.text == "" <==> IsBlank(raw.text))
  {
    StripIdempotent(raw.text);
    StripEmptyIffBlank(raw.text);
    Segment(Strip(raw.text), raw.start, raw.end)
  }

  /** `get_segments` as a map over the raw segments. */
  function NormalizeSegments(raw: seq<RawSegment>): (r: seq<Segment>)
    ensures |r| == |raw|
    ensures forall k :: 0 <= k < |raw| ==> r[k] == Normalize(raw[k])
  {
    seq(|raw|, k requires 0 <= k < |raw| => Normalize(raw[k]))
  }

  /**
   * Every text `get_segments` returns is already stripped, so normalising a
   * second time changes nothing.
   */
  lemma NormalizeIdempotent(raw: seq<RawSegment>)
    ensures var r := NormalizeSegments(raw);
      forall k :: 0 <= k < |r| ==> Strip(r[k].text) == r[k].text
  {
    var r := NormalizeSegments(raw);
    forall k | 0 <= k < |r| ensures Strip(r[k].text) == r[k].text {
      StripIdempotent(raw[k].text);
    }
  }

  /**
   * A segment whose text is whitespace only comes out with empty text; any
   * other keeps a non-empty text.
   */
  lemma NormalizeBlank(raw: seq<RawSegment>, k: nat)
    requires k < |raw|
    ensures NormalizeSegments(raw)[k].text == [] <==> IsBlank(raw[k].text)
  {
    StripEmptyIffBlank(raw[k].text);
  }

  class Transcriber {
    var modelName: string
    var device: string
    var model: Option<WhisperModel>

    /** `Transcriber(model_name, device)`: nothing is loaded yet. */
    constructor (modelName: string, device: string)
      ensures this.modelName == modelName && this.device == device && model == None
    {
      this.modelName := modelName;
      this.device := device;
      model := None;
    }

    /** `Transcriber()` with the settings' model size and device. */
    constructor Default()
      ensures modelName == Settings.WhisperModel && device == Settings.WhisperDevice && model == None
    {
      modelName := Settings.WhisperModel;
      device := Settings.WhisperDevice;
      model := None;
    }

    /**
     * `load_model`: loads the named model for the device only while nothing
     * is loaded; a second call, even after `model_name` changed, keeps the
     * first model.
     */
    method LoadModel()
      modifies this`model
      ensures model == if old(model).Some? then old(model) else Some(WhisperModel(modelName, device))
    {
      if model.None? {
        model := Some(WhisperModel(modelName, device));
      }
    }

    /**
     * `transcribe`: loads, then hands the recogniser's result back unchanged;
     * the language defaults to `en`.
     */
    method Transcribe(audioPath: string, recognize: Recognizer, language: string := "en")
      returns (r: Result<TranscriptionResult, string>)
      modifies this`model
      ensures model == if old(model).Some? then old(model) else Some(WhisperModel(modelName, device))
      ensures r == recognize(model.value, audioPath, language)
    {
      LoadModel();
      r := recognize(model.value, audioPath, language);
    }

    /**
     * `get_segments`: one output per raw segment, in order, holding only the
     * stripped text and the unchanged start and end.
     */
    method GetSegments(result: TranscriptionResult) returns (segments: seq<Segment>)
      ensures |segments| == |result.segments|
      ensures forall k :: 0 <= k < |segments| ==> segments[k] == Normalize(result.segments[k])
      ensures segments == NormalizeSegments(result.segments)
    {
      segments := [];
      var i := 0;
      while i < |result.segments|
        invariant 0 <= i <= |result.segments|
        invariant segments == NormalizeSegments(result.segments[..i])
      {
        var segment := result.segments[i];
        segments := segments + [Segment(Strip(segment.text), segment.start, segment.end)];
        i := i + 1;
      }
      assert result.segments[..i] == result.segments;
    }
  }
}
