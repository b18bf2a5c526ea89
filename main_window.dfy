/**
 * The processing pipeline of the main window (ui/main_window.py): the
 * guard of `start_processing` and the stage sequence of `process_video`
 * with its progress reports, the written subtitle files, the pairing of
 * Persian texts with English timings, and the two optional stages. Audio
 * extraction, speech recognition, the translation engine and ffmpeg are
 * parameters; widgets and the worker thread are not modelled.
 */
module MainWindow {
  import opened Wrappers
  import opened Segments
  import Settings
  import Text
  import Paths
  import Storage
  import Validators
  import SubtitleGenerator
  import Transcriber
  import Translator
  import VideoProcessor

  /** The stages of `process_video`, in the order they run. */
  datatype Stage = ExtractAudio | Transcribe | WriteEnglish | Translate | WritePersian | WriteBilingual | Embed

  /** How a run ends: the files it reports, or the stage whose exception ended it and the exception text. */
  datatype RunResult =
    | Completed(englishSrt: string, persianSrt: string, outputVideo: string)
    | Failed(stage: Stage, message: string)

  /** What `start_processing` does with a click. */
  datatype StartOutcome = AlreadyRunning | NoVideo | Invalid(error: Validators.ValidationError) | Started

  /** `AudioExtractor.extract`: the audio file path, or the text of the error it raises. */
  type AudioExtractor = string -> Result<string, string>

  /** The collaborators a run calls. */
  datatype Tools = Tools(
    extract: AudioExtractor,
    recognize: Transcriber.Recognizer,
    engine: Translator.Engine,
    run: VideoProcessor.Runner)

  /** The values of the two option menus and the two check boxes. */
  datatype Options = Options(whisperModel: string, translationModel: string, bilingual: bool, embed: bool)

  /** What a run leaves behind: its end, the files, the status reports, the stages completed and the engine calls. */
  datatype RunState = RunState(
    result: RunResult,
    files: map<string, string>,
    trail: seq<Report>,
    stages: seq<Stage>,
    engineInputs: seq<seq<string>>)

  /** The Whisper menu's initial choice. */
  const DefaultWhisperChoice: string := "base"

  /** The translation menu's initial choice. */
  const DefaultTranslationChoice: string := "Google Translate (googletrans)"

  /** The `update_status` calls of `process_video`, each with its fixed message and progress. */
  datatype Report =
    | ExtractingAudio | AudioExtracted | ConvertingSpeech | TranscriptionCompleted
    | TranslatingToPersian | TranslationCompleted | AddingSubtitles | ProcessingComplete
    | ProcessingError

  /** The status text of a report. */
  function Message(r: Report): string {
    match r
    case ExtractingAudio => "Extracting audio ..."
    case AudioExtracted => "Audio extracted"
    case ConvertingSpeech => "Converting speech to text ..."
    case TranscriptionCompleted => "Transcription completed"
    case TranslatingToPersian => "Translating into Persian ..."
    case TranslationCompleted => "Translation completed"
    case AddingSubtitles => "Adding subtitles to video ..."
    case ProcessingComplete => "Processing complete! \U{2713}"
    case ProcessingError => "Error: Close the app then open it again"
  }

  /** The progress-bar value of a report. */
  function Progress(r: Report): real {
    match r
    case ExtractingAudio => 0.0
    case AudioExtracted => 0.2
    case ConvertingSpeech => 0.2
    case TranscriptionCompleted => 0.5
    case TranslatingToPersian => 0.5
    case TranslationCompleted => 0.8
    case AddingSubtitles => 0.8
    case ProcessingComplete => 1.0
    case ProcessingError => 0.0
  }

  /** The reports of a run that completes. */
  function SuccessTrail(embed: bool): (t: seq<Report>)
    ensures |t| == if embed then 8 else 7
  {
    [ExtractingAudio, AudioExtracted, ConvertingSpeech, TranscriptionCompleted,
     TranslatingToPersian, TranslationCompleted]
    + (if embed then [AddingSubtitles] else [])
    + [ProcessingComplete]
  }

  /** The stages a run that completes goes through. */
  function Plan(bilingual: bool, embed: bool): seq<Stage> {
    [ExtractAudio, Transcribe, WriteEnglish, Translate, WritePersian]
    + (if bilingual then [WriteBilingual] else [])
    + (if embed then [Embed] else [])
  }

  /** `OUTPUT_DIR / "subtitles" / f"{video_name}_{tag}.srt"`. */
  function SubtitlePath(stem: string, tag: string): string {
    Paths.JoinPath(Paths.JoinPath(Settings.OutputDir, "subtitles"), stem + "_" + tag + ".srt")
  }

  /** `[seg['text'] for seg in segments_en]`. */
  function TextsOf(segments: seq<Segment>): (texts: seq<string>)
    ensures |texts| == |segments|
    ensures forall k :: 0 <= k < |segments| ==> texts[k] == segments[k].text
  {
    seq(|segments|, k requires 0 <= k < |segments| => segments[k].text)
  }

  /**
   * `zip(segments_en, texts_fa)`: as many Persian segments as the shorter
   * list, each with the translated text and the English segment's timing.
   */
  function PairWithTimings(en: seq<Segment>, texts: seq<string>): (fa: seq<Segment>)
    ensures |fa| == SubtitleGenerator.Min(|en|, |texts|)
    ensures forall k :: 0 <= k < |fa| ==> fa[k] == Segment(texts[k], en[k].start, en[k].end)
  {
    seq(SubtitleGenerator.Min(|en|, |texts|), k requires 0 <= k < SubtitleGenerator.Min(|en|, |texts|) =>
      Segment(texts[k], en[k].start, en[k].end))
  }

  /** The loop of `process_video` that builds `segments_fa`. */
  method PairTranslations(en: seq<Segment>, texts: seq<string>) returns (fa: seq<Segment>)
    ensures fa == PairWithTimings(en, texts)
  {
    fa := [];
    var i := 0;
    while i < |en| && i < |texts|
      invariant 0 <= i <= SubtitleGenerator.Min(|en|, |texts|)
      invariant |fa| == i
      invariant forall k :: 0 <= k < i ==> fa[k] == Segment(texts[k], en[k].start, en[k].end)
    {
      fa := fa + [Segment(texts[i], en[i].start, en[i].end)];
      i := i + 1;
    }
  }

  // ---------------------------------------------------------------------------
  // The run, as a function of its inputs
  // ---------------------------------------------------------------------------

  /**
   * `process_video` on a video path, with the Whisper model the transcriber
   * holds once loaded, the translator's load result for the chosen name, the
   * options, the collaborators and the files already present. Each stage
   * appends its status reports and, once done, itself to the stage list.
   */
  function Pipeline(video: string, whisper: Transcriber.WhisperModel,
                    load: Result<Translator.ModelId, Translator.TranslatorError>,
                    opts: Options, tools: Tools, files: map<string, string>): RunState
  {
    var reported := [ExtractingAudio];
    var audio := tools.extract(video);
    if audio.Err? then
      RunState(Failed(ExtractAudio, audio.error), files, reported + [ProcessingError], [], [])
    else
      var reported := reported + [AudioExtracted, ConvertingSpeech];
      var transcription := tools.recognize(whisper, audio.value, "en");
      if transcription.Err? then
        RunState(Failed(Transcribe, transcription.error), files, reported + [ProcessingError], [ExtractAudio], [])
      else
        var en := Transcriber.NormalizeSegments(transcription.value.segments);
        Translation(video, en, load, opts, tools, files, reported + [TranscriptionCompleted], [ExtractAudio] + [Transcribe])
  }

  /** The run from writing the English subtitles on, after the reports and stages so far. */
  function Translation(video: string, en: seq<Segment>,
                       load: Result<Translator.ModelId, Translator.TranslatorError>,
                       opts: Options, tools: Tools, files: map<string, string>,
                       reported: seq<Report>, done: seq<Stage>): RunState
  {
    var written := files[SubtitlePath(Paths.PathStem(video), "en") := SubtitleGenerator.SrtContent(en)];
    var done := done + [WriteEnglish];
    var reported := reported + [TranslatingToPersian];
    if load.Err? then
      RunState(Failed(Translate, load.error.message), written, reported + [ProcessingError], done, [])
    else
      var texts := TextsOf(en);
      var fa := PairWithTimings(en, Translator.BatchTranslations(load.value, texts, tools.engine));
      Output(video, en, fa, opts, tools, written, reported + [TranslationCompleted], done + [Translate],
             Translator.EngineInputs(texts))
  }

  /** The files after the Persian and, when chosen, the bilingual subtitles are written. */
  function OutputFiles(stem: string, en: seq<Segment>, fa: seq<Segment>, bilingual: bool,
                       files: map<string, string>): map<string, string>
  {
    var persian := files[SubtitlePath(stem, "fa") := SubtitleGenerator.SrtContent(fa)];
    if bilingual
    then persian[SubtitlePath(stem, "bilingual") := SubtitleGenerator.BilingualContent(en, fa)]
    else persian
  }

  /** The stages after the Persian and, when chosen, the bilingual subtitles are written. */
  function OutputStages(done: seq<Stage>, bilingual: bool): seq<Stage> {
    if bilingual then done + [WritePersian] + [WriteBilingual] else done + [WritePersian]
  }

  /** The mux command of a run: English then Persian subtitles, under the video's stem. */
  function RunCommand(video: string): VideoProcessor.Command {
    var stem := Paths.PathStem(video);
    VideoProcessor.MuxCommand(video, [("eng", SubtitlePath(stem, "en")), ("per", SubtitlePath(stem, "fa"))],
                              Some(stem + "_subtitled.mkv"))
  }

  /** The run from writing the Persian subtitles on. */
  function Output(video: string, en: seq<Segment>, fa: seq<Segment>, opts: Options, tools: Tools,
                  files: map<string, string>, reported: seq<Report>, done: seq<Stage>,
                  inputs: seq<seq<string>>): RunState
  {
    var stem := Paths.PathStem(video);
    var enPath := SubtitlePath(stem, "en");
    var faPath := SubtitlePath(stem, "fa");
    var written := OutputFiles(stem, en, fa, opts.bilingual, files);
    var done := OutputStages(done, opts.bilingual);
    if !opts.embed then
      RunState(Completed(enPath, faPath, ""), written, reported + [ProcessingComplete], done, inputs)
    else
      var failure := tools.run(RunCommand(video));
      if failure.Some? then
        RunState(Failed(Embed, VideoProcessor.ErrorMessage(failure.value)), written,
          reported + [AddingSubtitles] + [ProcessingError], done, inputs)
      else
        RunState(Completed(enPath, faPath, VideoProcessor.OutputPath(video, Some(stem + "_subtitled.mkv"))),
          written, reported + [AddingSubtitles] + [ProcessingComplete], done + [Embed], inputs)
  }

  /** The run when the audio cannot be extracted. */
  lemma {:induction false} PipelineNoAudio(video: string, whisper: Transcriber.WhisperModel,
                                           load: Result<Translator.ModelId, Translator.TranslatorError>,
                                           opts: Options, tools: Tools, files: map<string, string>)
    requires tools.extract(video).Err?
    ensures Pipeline(video, whisper, load, opts, tools, files)
      == RunState(Failed(ExtractAudio, tools.extract(video).error), files,
                  [ExtractingAudio] + [ProcessingError], [], [])
  {
  }

  /** The run when the speech cannot be recognised. */
  lemma {:induction false} PipelineNotRecognised(video: string, whisper: Transcriber.WhisperModel,
                                                 load: Result<Translator.ModelId, Translator.TranslatorError>,
                                                 opts: Options, tools: Tools, files: map<string, string>)
    requires tools.extract(video).Ok?
    requires tools.recognize(whisper, tools.extract(video).value, "en").Err?
    ensures Pipeline(video, whisper, load, opts, tools, files)
      == RunState(Failed(Transcribe, tools.recognize(whisper, tools.extract(video).value, "en").error), files,
                  [ExtractingAudio] + [AudioExtracted, ConvertingSpeech] + [ProcessingError], [ExtractAudio], [])
  {
  }

  /** The run once the speech is recognised, with the reports and stages of the first two steps. */
  lemma {:induction false} PipelineTranscribed(video: string, whisper: Transcriber.WhisperModel,
                            load: Result<Translator.ModelId, Translator.TranslatorError>,
                            opts: Options, tools: Tools, files: map<string, string>,
                            reported: seq<Report>, done: seq<Stage>)
    requires tools.extract(video).Ok?
    requires tools.recognize(whisper, tools.extract(video).value, "en").Ok?
    requires reported == [ExtractingAudio] + [AudioExtracted, ConvertingSpeech] + [TranscriptionCompleted]
    requires done == [ExtractAudio] + [Transcribe]
    ensures Pipeline(video, whisper, load, opts, tools, files)
      == Translation(video,
                     Transcriber.NormalizeSegments(tools.recognize(whisper, tools.extract(video).value, "en").value.segments),
                     load, opts, tools, files, reported, done)
  {
  }

  /** The run once the English subtitles are written and loading the translator failed. */
  lemma {:induction false} TranslationFails(video: string, en: seq<Segment>,
                         load: Result<Translator.ModelId, Translator.TranslatorError>,
                         opts: Options, tools: Tools, files: map<string, string>,
                         reported: seq<Report>, done: seq<Stage>)
    requires load.Err?
    ensures Translation(video, en, load, opts, tools, files, reported, done)
      == RunState(Failed(Translate, load.error.message),
                  files[SubtitlePath(Paths.PathStem(video), "en") := SubtitleGenerator.SrtContent(en)],
                  reported + [TranslatingToPersian] + [ProcessingError], done + [WriteEnglish], [])
  {
  }

  /** The run once the English subtitles are written and the texts are translated. */
  lemma {:induction false} TranslationSucceeds(video: string, en: seq<Segment>,
                            load: Result<Translator.ModelId, Translator.TranslatorError>,
                            opts: Options, tools: Tools, files: map<string, string>,
                            reported: seq<Report>, done: seq<Stage>)
    requires load.Ok?
    ensures Translation(video, en, load, opts, tools, files, reported, done)
      == Output(video, en,
                PairWithTimings(en, Translator.BatchTranslations(load.value, TextsOf(en), tools.engine)),
                opts, tools, files[SubtitlePath(Paths.PathStem(video), "en") := SubtitleGenerator.SrtContent(en)],
                reported + [TranslatingToPersian] + [TranslationCompleted], done + [WriteEnglish] + [Translate],
                Translator.EngineInputs(TextsOf(en)))
  {
  }

  /** The last stage of a run that does not embed. */
  lemma {:induction false} OutputPlain(video: string, en: seq<Segment>, fa: seq<Segment>, opts: Options, tools: Tools,
                    files: map<string, string>, reported: seq<Report>, done: seq<Stage>, inputs: seq<seq<string>>)
    requires !opts.embed
    ensures var stem := Paths.PathStem(video);
      Output(video, en, fa, opts, tools, files, reported, done, inputs)
      == RunState(Completed(SubtitlePath(stem, "en"), SubtitlePath(stem, "fa"), ""),
                  OutputFiles(stem, en, fa, opts.bilingual, files), reported + [ProcessingComplete],
                  OutputStages(done, opts.bilingual), inputs)
  {
  }

  /** The last stage of a run whose mux fails. */
  lemma {:induction false} OutputMuxFails(video: string, en: seq<Segment>, fa: seq<Segment>, opts: Options, tools: Tools,
                       files: map<string, string>, reported: seq<Report>, done: seq<Stage>, inputs: seq<seq<string>>)
    requires opts.embed && tools.run(RunCommand(video)).Some?
    ensures var stem := Paths.PathStem(video);
      Output(video, en, fa, opts, tools, files, reported, done, inputs)
      == RunState(Failed(Embed, VideoProcessor.ErrorMessage(tools.run(RunCommand(video)).value)),
                  OutputFiles(stem, en, fa, opts.bilingual, files), reported + [AddingSubtitles] + [ProcessingError],
                  OutputStages(done, opts.bilingual), inputs)
  {
  }

  /** The last stage of a run whose mux succeeds. */
  lemma {:induction false} OutputMuxes(video: string, en: seq<Segment>, fa: seq<Segment>, opts: Options, tools: Tools,
                    files: map<string, string>, reported: seq<Report>, done: seq<Stage>, inputs: seq<seq<string>>)
    requires opts.embed && tools.run(RunCommand(video)).None?
    ensures var stem := Paths.PathStem(video);
      Output(video, en, fa, opts, tools, files, reported, done, inputs)
      == RunState(Completed(SubtitlePath(stem, "en"), SubtitlePath(stem, "fa"),
                            VideoProcessor.OutputPath(video, Some(stem + "_subtitled.mkv"))),
                  OutputFiles(stem, en, fa, opts.bilingual, files), reported + [AddingSubtitles] + [ProcessingComplete],
                  OutputStages(done, opts.bilingual) + [Embed], inputs)
  {
  }

  /** The engine inputs a run records do not change anything else about its last stages. */
  lemma {:induction false} OutputInputs(video: string, en: seq<Segment>, fa: seq<Segment>, opts: Options, tools: Tools,
                                        files: map<string, string>, reported: seq<Report>, done: seq<Stage>,
                                        inputs: seq<seq<string>>)
    ensures Output(video, en, fa, opts, tools, files, reported, done, inputs)
      == Output(video, en, fa, opts, tools, files, reported, done, []).(engineInputs := inputs)
  {
  }

  /** The run gets past the speech stage: the audio is extracted and the speech recognised. */
  predicate Transcribed(video: string, whisper: Transcriber.WhisperModel, tools: Tools) {
    tools.extract(video).Ok? && tools.recognize(whisper, tools.extract(video).value, "en").Ok?
  }

  /** What the translator's `load_model` yields with `held` loaded and `name` set: the held model, or the dispatch on the name. */
  function LoadFor(held: Option<Translator.ModelId>, name: string): Result<Translator.ModelId, Translator.TranslatorError> {
    if held.Some? then Ok(held.value) else Translator.ResolveModel(name)
  }

  /**
   * The translator's model once the translation stage has loaded: the
   * checkpoint it loaded or already held, which later runs keep whatever
   * name they set; unchanged (nothing loaded) when loading failed.
   */
  function Kept(load: Result<Translator.ModelId, Translator.TranslatorError>, before: Option<Translator.ModelId>)
    : Option<Translator.ModelId>
  {
    if load.Ok? then Some(load.value) else before
  }

  // ---------------------------------------------------------------------------
  // The window
  // ---------------------------------------------------------------------------

  class MainWindow {
    var videoPath: Option<string>
    var processing: bool
    /** The values of the option menus and check boxes. */
    var whisperModel: string
    var translationModel: string
    var createBilingual: bool
    var embedSubtitles: bool
    /** Every `update_status` report so far, in order. */
    var trail: seq<Report>
    /** Every stage completed so far, in order. */
    var stages: seq<Stage>
    const disk: Storage.Disk
    const transcriber: Transcriber.Transcriber
    const translator: Translator.Translator

    predicate Valid()
      reads this, translator
    {
      translator.Valid()
    }

    /** The Whisper model a transcription would use now. */
    function WhisperFor(name: string): Transcriber.WhisperModel
      reads this, transcriber
    {
      if transcriber.model.Some? then transcriber.model.value else Transcriber.WhisperModel(name, transcriber.device)
    }

    /** What loading the translator would yield now, once its name is set to `name`. */
    function TranslatorFor(name: string): Result<Translator.ModelId, Translator.TranslatorError>
      reads this, translator
    {
      LoadFor(translator.model, name)
    }

    function Choices(): Options
      reads this
    {
      Options(whisperModel, translationModel, createBilingual, embedSubtitles)
    }

    /**
     * The window as it opens: no video, not processing, Whisper `base`, the
     * Google entry of the translation menu, bilingual off and embedding on,
     * and fresh collaborators with nothing loaded.
     */
    constructor (disk: Storage.Disk, cudaAvailable: bool)
      ensures Valid() && this.disk == disk
      ensures videoPath == None && !processing && trail == [] && stages == []
      ensures Choices() == Options(DefaultWhisperChoice, DefaultTranslationChoice, false, true)
      ensures fresh(transcriber) && transcriber.model == None
      ensures fresh(translator) && translator.model == None && translator.generated == []
    {
      this.disk := disk;
      transcriber := new Transcriber.Transcriber.Default();
      translator := new Translator.Translator(Settings.TranslationModel, cudaAvailable);
      videoPath := None;
      processing := false;
      whisperModel := DefaultWhisperChoice;
      translationModel := DefaultTranslationChoice;
      createBilingual := false;
      embedSubtitles := true;
      trail := [];
      stages := [];
    }

    /** `select_video`: a chosen path replaces the current one; a cancelled dialog changes nothing. */
    method SelectVideo(filePath: string)
      modifies this`videoPath
      ensures videoPath == if filePath != "" then Some(filePath) else old(videoPath)
    {
      if filePath != "" {
        videoPath := Some(filePath);
      }
    }

    /**
     * `start_processing`: ignored while a run is on, a warning without a
     * video, the validation error when the file is refused, and otherwise
     * the run starts with `processing` set.
     */
    method StartProcessing(facts: Validators.FileFacts) returns (outcome: StartOutcome)
      modifies this`processing
      ensures old(processing) ==> outcome == AlreadyRunning && processing
      ensures !old(processing) && (videoPath.None? || videoPath.value == "") ==> outcome == NoVideo && !processing
      ensures !old(processing) && videoPath.Some? && videoPath.value != "" ==>
        outcome == Admission(videoPath.value, facts) && processing == outcome.Started?
    {
      if processing {
        return AlreadyRunning;
      }
      if videoPath.None? || videoPath.value == "" {
        return NoVideo;
      }
      var checked := Validators.ValidateVideoFile(videoPath.value, facts);
      if checked.Err? {
        return Invalid(checked.error);
      }
      var sized := Validators.ValidateFileSize(facts.sizeBytes);
      if sized.Err? {
        return Invalid(sized.error);
      }
      processing := true;
      outcome := Started;
    }

    /**
     * `process_video` for the selected video: the run Pipeline describes,
     * with the chosen model names handed to the transcriber and translator
     * just before their stages, and `processing` cleared however it ends.
     * Steps 1 and 2 (audio and speech) are here; the later steps are the two
     * methods below.
     */
    method ProcessVideo(tools: Tools) returns (r: RunResult)
      requires Valid() && videoPath.Some?
      modifies this`processing, this`trail, this`stages, disk, transcriber, translator
      ensures Valid() && !processing
      ensures var st := Pipeline(old(videoPath.value), old(WhisperFor(whisperModel)),
                                 old(TranslatorFor(translationModel)), old(Choices()), tools, old(disk.files));
        r == st.result && disk.files == st.files && trail == old(trail) + st.trail
        && stages == old(stages) + st.stages
        && translator.generated == old(translator.generated) + st.engineInputs
      ensures tools.extract(old(videoPath.value)).Ok? ==>
        transcriber.modelName == old(whisperModel) && transcriber.model == Some(old(WhisperFor(whisperModel)))
      ensures tools.extract(old(videoPath.value)).Err? ==>
        transcriber.modelName == old(transcriber.modelName) && transcriber.model == old(transcriber.model)
      ensures transcriber.device == old(transcriber.device) && translator.device == old(translator.device)
      ensures Transcribed(old(videoPath.value), old(WhisperFor(whisperModel)), tools) ==>
        translator.modelName == old(translationModel)
        && translator.model == Kept(old(TranslatorFor(translationModel)), old(translator.model))
      ensures !Transcribed(old(videoPath.value), old(WhisperFor(whisperModel)), tools) ==>
        translator.modelName == old(translator.modelName) && translator.model == old(translator.model)
    {
      var video := videoPath.value;
      ghost var whisper := WhisperFor(whisperModel);
      ghost var load := TranslatorFor(translationModel);
      ghost var files0 := disk.files;

      var reported := [ExtractingAudio];
      var done: seq<Stage> := [];
      var audio := tools.extract(video);
      if audio.Err? {
        trail, stages := trail + (reported + [ProcessingError]), stages + done;
        processing := false;
        return Failed(ExtractAudio, audio.error);
      }
      done := [ExtractAudio];
      reported := reported + [AudioExtracted, ConvertingSpeech];

      transcriber.modelName := whisperModel;
      var transcription := transcriber.Transcribe(audio.value, tools.recognize);
      assert transcription == tools.recognize(whisper, audio.value, "en");
      if transcription.Err? {
        trail, stages := trail + (reported + [ProcessingError]), stages + done;
        processing := false;
        return Failed(Transcribe, transcription.error);
      }
      var en := transcriber.GetSegments(transcription.value);
      done := done + [Transcribe];
      reported := reported + [TranscriptionCompleted];
      PipelineTranscribed(video, whisper, load, Choices(), tools, files0, reported, done);

      r, reported, done := SaveAndTranslate(video, en, tools, reported, done);
      trail, stages := trail + reported, stages + done;
      processing := false;
    }

    /**
     * Steps 3 and 4 of `process_video`: the English subtitles are written,
     * the translator gets the chosen model name and translates the segment
     * texts, which are paired with the English timings; then steps 5 to 7.
     */
    method SaveAndTranslate(video: string, en: seq<Segment>, tools: Tools, reported: seq<Report>, done: seq<Stage>)
      returns (r: RunResult, reportedAfter: seq<Report>, doneAfter: seq<Stage>)
      requires Valid()
      modifies disk, translator
      ensures Valid() && translator.modelName == translationModel && translator.device == old(translator.device)
      ensures translator.model == Kept(old(TranslatorFor(translationModel)), old(translator.model))
      ensures var st := Translation(video, en, old(TranslatorFor(translationModel)), Choices(), tools,
                                    old(disk.files), reported, done);
        r == st.result && disk.files == st.files && reportedAfter == st.trail && doneAfter == st.stages
        && translator.generated == old(translator.generated) + st.engineInputs
    {
      ghost var load := TranslatorFor(translationModel);
      ghost var files0 := disk.files;
      ghost var opts := Choices();
      var stem := Paths.PathStem(video);
      var _ := SubtitleGenerator.GenerateSrt(disk, en, SubtitlePath(stem, "en"));
      doneAfter := done + [WriteEnglish];
      reportedAfter := reported + [TranslatingToPersian];

      var texts := TranslateTexts(TextsOf(en), tools.engine);
      if texts.Err? {
        TranslationFails(video, en, load, opts, tools, files0, reported, done);
        return Failed(Translate, texts.error.message), reportedAfter + [ProcessingError], doneAfter;
      }
      var fa := PairTranslations(en, texts.value);
      TranslationSucceeds(video, en, load, opts, tools, files0, reported, done);
      ghost var written := disk.files;
      r, reportedAfter, doneAfter := SaveAndEmbed(video, en, fa, tools,
                                                  reportedAfter + [TranslationCompleted], doneAfter + [Translate]);
      OutputInputs(video, en, fa, opts, tools, written, reported + [TranslatingToPersian] + [TranslationCompleted],
                   done + [WriteEnglish] + [Translate], Translator.EngineInputs(TextsOf(en)));
    }

    /**
     * Step 4 of `process_video` up to the pairing: the translator gets the
     * chosen model name, loads what that name resolves to unless a model is
     * already loaded, and translates the texts in batches.
     */
    method TranslateTexts(texts: seq<string>, engine: Translator.Engine)
      returns (r: Result<seq<string>, Translator.TranslatorError>)
      requires Valid()
      modifies translator
      ensures Valid() && translator.modelName == translationModel && translator.device == old(translator.device)
      ensures translator.model == Kept(old(TranslatorFor(translationModel)), old(translator.model))
      ensures var load := old(TranslatorFor(translationModel));
        (load.Err? ==> r == Err(load.error) && translator.generated == old(translator.generated))
        && (load.Ok? ==> r == Ok(Translator.BatchTranslations(load.value, texts, engine))
                         && translator.generated == old(translator.generated) + Translator.EngineInputs(texts))
    {
      translator.modelName := translationModel;
      assert translator.Loaded() == old(TranslatorFor(translationModel));
      r := translator.TranslateBatch(texts, engine);
    }

    /**
     * Steps 5 to 7 of `process_video`: the Persian subtitles, the bilingual
     * ones when chosen, and the mux of English and Persian when chosen.
     */
    method SaveAndEmbed(video: string, en: seq<Segment>, fa: seq<Segment>, tools: Tools,
                        reported: seq<Report>, done: seq<Stage>)
      returns (r: RunResult, reportedAfter: seq<Report>, doneAfter: seq<Stage>)
      modifies disk
      ensures var st := Output(video, en, fa, Choices(), tools, old(disk.files), reported, done, []);
        r == st.result && disk.files == st.files && reportedAfter == st.trail && doneAfter == st.stages
    {
      ghost var files0 := disk.files;
      var stem := Paths.PathStem(video);
      var faPath := SubtitleGenerator.GenerateSrt(disk, fa, SubtitlePath(stem, "fa"));
      doneAfter := done + [WritePersian];
      if createBilingual {
        var _ := SubtitleGenerator.CreateBilingualSrt(disk, en, fa, SubtitlePath(stem, "bilingual"));
        doneAfter := doneAfter + [WriteBilingual];
      }
      assert disk.files == OutputFiles(stem, en, fa, createBilingual, files0);
      assert doneAfter == OutputStages(done, createBilingual);

      var outputVideo := "";
      reportedAfter := reported;
      if embedSubtitles {
        reportedAfter := reportedAfter + [AddingSubtitles];
        var muxed := VideoProcessor.AddSubtitles(video, [("eng", SubtitlePath(stem, "en")), ("per", faPath)],
                                                 Some(stem + "_subtitled.mkv"), tools.run);
        if muxed.Err? {
          OutputMuxFails(video, en, fa, Choices(), tools, files0, reported, done, []);
          return Failed(Embed, muxed.error.message), reportedAfter + [ProcessingError], doneAfter;
        }
        OutputMuxes(video, en, fa, Choices(), tools, files0, reported, done, []);
        outputVideo := muxed.value;
        doneAfter := doneAfter + [Embed];
      } else {
        OutputPlain(video, en, fa, Choices(), tools, files0, reported, done, []);
      }
      r := Completed(SubtitlePath(stem, "en"), faPath, outputVideo);
      reportedAfter := reportedAfter + [ProcessingComplete];
    }
  }

  /** The verdict of the two validators `start_processing` calls, in order. */
  function Admission(path: string, facts: Validators.FileFacts): StartOutcome {
    match Validators.ValidateVideoFile(path, facts)
    case Err(e) => Invalid(e)
    case Ok(_) =>
      match Validators.ValidateFileSize(facts.sizeBytes)
      case Err(e) => Invalid(e)
      case Ok(_) => Started
  }
  // ---------------------------------------------------------------------------
  // Properties of a run
  // ---------------------------------------------------------------------------

  /** A completed run's progress starts at 0, ends at 1 and never goes back. */
  lemma {:induction false} SuccessProgress(embed: bool)
    ensures var t := SuccessTrail(embed);
      Progress(t[0]) == 0.0 && Progress(t[|t| - 1]) == 1.0
      && (forall i, j :: 0 <= i <= j < |t| ==> Progress(t[i]) <= Progress(t[j]))
      && Message(t[|t| - 1]) == "Processing complete! \U{2713}"
  {
  }

  /**
   * The shape of a run: a completed run reported the whole success sequence
   * and went through the whole plan of its options; a failed one reported a
   * prefix of that sequence followed by the error report, which sets the
   * progress back to 0, and completed a proper prefix of the plan, failing at
   * the stage that comes next.
   */
  ghost predicate WellFormedRun(st: RunState, opts: Options) {
    var ok := SuccessTrail(opts.embed);
    var plan := Plan(opts.bilingual, opts.embed);
    (st.result.Completed? ==> st.trail == ok && st.stages == plan)
    && (st.result.Failed? ==>
          2 <= |st.trail| <= |ok| && st.trail[|st.trail| - 1] == ProcessingError
          && st.trail[..|st.trail| - 1] == ok[..|st.trail| - 1]
          && |st.stages| < |plan| && st.stages == plan[..|st.stages|] && st.result.stage == plan[|st.stages|])
  }

  /**
   * A run of the shape above in which completing and reporting the whole
   * success sequence go together, and a failure ends at progress 0.
   */
  ghost predicate ShapedRun(st: RunState, opts: Options) {
    WellFormedRun(st, opts)
    && (st.result.Completed? <==> st.trail == SuccessTrail(opts.embed))
    && (st.result.Failed? ==> |st.trail| > 0 && Progress(st.trail[|st.trail| - 1]) == 0.0)
  }

  /** Every run has the shape above; it completes exactly when it reports the success sequence. */
  lemma {:induction false} RunShape(video: string, whisper: Transcriber.WhisperModel,
                 load: Result<Translator.ModelId, Translator.TranslatorError>,
                 opts: Options, tools: Tools, files: map<string, string>)
    ensures ShapedRun(Pipeline(video, whisper, load, opts, tools, files), opts)
  {
    if tools.extract(video).Ok? && tools.recognize(whisper, tools.extract(video).value, "en").Ok? {
      TranscribedShape(video, whisper, load, opts, tools, files);
    } else {
      EarlyShape(video, whisper, load, opts, tools, files);
    }
  }

  /** A run whose speech is recognised has the shape above. */
  lemma {:induction false} TranscribedShape(video: string, whisper: Transcriber.WhisperModel,
                 load: Result<Translator.ModelId, Translator.TranslatorError>,
                 opts: Options, tools: Tools, files: map<string, string>)
    requires tools.extract(video).Ok?
    requires tools.recognize(whisper, tools.extract(video).value, "en").Ok?
    ensures ShapedRun(Pipeline(video, whisper, load, opts, tools, files), opts)
  {
    var en := Transcriber.NormalizeSegments(tools.recognize(whisper, tools.extract(video).value, "en").value.segments);
    var reported := [ExtractingAudio] + [AudioExtracted, ConvertingSpeech] + [TranscriptionCompleted];
    var done := [ExtractAudio] + [Transcribe];
    PipelineTranscribed(video, whisper, load, opts, tools, files, reported, done);
    TranslationShape(video, en, load, opts, tools, files, reported, done);
    ShapeEnds(Pipeline(video, whisper, load, opts, tools, files), opts);
  }

  /** A run that stops at the audio or the speech stage has the shape above. */
  lemma {:induction false} EarlyShape(video: string, whisper: Transcriber.WhisperModel,
                 load: Result<Translator.ModelId, Translator.TranslatorError>,
                 opts: Options, tools: Tools, files: map<string, string>)
    requires tools.extract(video).Err? || tools.recognize(whisper, tools.extract(video).value, "en").Err?
    ensures ShapedRun(Pipeline(video, whisper, load, opts, tools, files), opts)
  {
    if tools.extract(video).Err? {
      PipelineNoAudio(video, whisper, load, opts, tools, files);
    } else {
      PipelineNotRecognised(video, whisper, load, opts, tools, files);
    }
    EarlyFailureShape(Pipeline(video, whisper, load, opts, tools, files), opts);
    ShapeEnds(Pipeline(video, whisper, load, opts, tools, files), opts);
  }

  /** In a run of that shape, completing and reporting the success sequence go together, and a failure ends at progress 0. */
  lemma {:induction false} ShapeEnds(st: RunState, opts: Options)
    requires WellFormedRun(st, opts)
    ensures st.result.Completed? <==> st.trail == SuccessTrail(opts.embed)
    ensures st.result.Failed? ==> Progress(st.trail[|st.trail| - 1]) == 0.0
  {
    if st.result.Failed? {
      var ok := SuccessTrail(opts.embed);
      assert st.trail[|st.trail| - 1] != ok[|ok| - 1];
    }
  }

  /** A run that fails at the audio or the speech stage has the shape above. */
  lemma {:induction false} EarlyFailureShape(st: RunState, opts: Options)
    requires st.result.Failed?
    requires (st.result.stage == ExtractAudio && st.trail == [ExtractingAudio] + [ProcessingError] && st.stages == [])
      || (st.result.stage == Transcribe && st.trail == [ExtractingAudio] + [AudioExtracted, ConvertingSpeech] + [ProcessingError]
          && st.stages == [ExtractAudio])
    ensures WellFormedRun(st, opts)
  {
    if st.result.stage == Transcribe {
      assert st.trail[..3] == SuccessTrail(opts.embed)[..3];
    }
  }

  /** The run from the English subtitles on has the shape above. */
  lemma {:induction false} TranslationShape(video: string, en: seq<Segment>,
                         load: Result<Translator.ModelId, Translator.TranslatorError>,
                         opts: Options, tools: Tools, files: map<string, string>,
                         reported: seq<Report>, done: seq<Stage>)
    requires reported == [ExtractingAudio] + [AudioExtracted, ConvertingSpeech] + [TranscriptionCompleted]
    requires done == [ExtractAudio] + [Transcribe]
    ensures WellFormedRun(Translation(video, en, load, opts, tools, files, reported, done), opts)
  {
    if load.Err? {
      TranslationFails(video, en, load, opts, tools, files, reported, done);
      TranslateFailureShape(Translation(video, en, load, opts, tools, files, reported, done), opts, reported, done);
    } else {
      var fa := PairWithTimings(en, Translator.BatchTranslations(load.value, TextsOf(en), tools.engine));
      var written := files[SubtitlePath(Paths.PathStem(video), "en") := SubtitleGenerator.SrtContent(en)];
      TranslationSucceeds(video, en, load, opts, tools, files, reported, done);
      OutputShape(video, en, fa, opts, tools, written, Translator.EngineInputs(TextsOf(en)),
                  reported + [TranslatingToPersian] + [TranslationCompleted], done + [WriteEnglish] + [Translate]);
    }
  }

  /** A run whose translator cannot be loaded has the shape above. */
  lemma {:induction false} TranslateFailureShape(st: RunState, opts: Options, reported: seq<Report>, done: seq<Stage>)
    requires reported == [ExtractingAudio] + [AudioExtracted, ConvertingSpeech] + [TranscriptionCompleted]
    requires done == [ExtractAudio] + [Transcribe]
    requires st.result.Failed? && st.result.stage == Translate
    requires st.trail == reported + [TranslatingToPersian] + [ProcessingError]
    requires st.stages == done + [WriteEnglish]
    ensures WellFormedRun(st, opts)
  {
    assert st.trail[..5] == SuccessTrail(opts.embed)[..5];
    assert st.stages == Plan(opts.bilingual, opts.embed)[..3];
  }

  /** The run from the Persian subtitles on has the shape above. */
  lemma {:induction false} OutputShape(video: string, en: seq<Segment>, fa: seq<Segment>, opts: Options, tools: Tools,
                    files: map<string, string>, inputs: seq<seq<string>>, reported: seq<Report>, done: seq<Stage>)
    requires reported == [ExtractingAudio] + [AudioExtracted, ConvertingSpeech] + [TranscriptionCompleted] + [TranslatingToPersian] + [TranslationCompleted]
    requires done == [ExtractAudio] + [Transcribe] + [WriteEnglish] + [Translate]
    ensures WellFormedRun(Output(video, en, fa, opts, tools, files, reported, done, inputs), opts)
  {
    if !opts.embed {
      OutputPlain(video, en, fa, opts, tools, files, reported, done, inputs);
      CompletedShape(Output(video, en, fa, opts, tools, files, reported, done, inputs), opts, reported, done);
    } else if tools.run(RunCommand(video)).Some? {
      OutputMuxFails(video, en, fa, opts, tools, files, reported, done, inputs);
      EmbedFailureShape(Output(video, en, fa, opts, tools, files, reported, done, inputs), opts, reported, done);
    } else {
      OutputMuxes(video, en, fa, opts, tools, files, reported, done, inputs);
      CompletedShape(Output(video, en, fa, opts, tools, files, reported, done, inputs), opts, reported, done);
    }
  }

  /** A run that completes after the translation has the shape above. */
  lemma {:induction false} CompletedShape(st: RunState, opts: Options, reported: seq<Report>, done: seq<Stage>)
    requires reported == [ExtractingAudio] + [AudioExtracted, ConvertingSpeech] + [TranscriptionCompleted] + [TranslatingToPersian] + [TranslationCompleted]
    requires done == [ExtractAudio] + [Transcribe] + [WriteEnglish] + [Translate]
    requires st.result.Completed?
    requires st.trail == if opts.embed then reported + [AddingSubtitles] + [ProcessingComplete] else reported + [ProcessingComplete]
    requires st.stages == if opts.embed then OutputStages(done, opts.bilingual) + [Embed] else OutputStages(done, opts.bilingual)
    ensures WellFormedRun(st, opts)
  {
  }

  /** A run whose mux fails has the shape above. */
  lemma {:induction false} EmbedFailureShape(st: RunState, opts: Options, reported: seq<Report>, done: seq<Stage>)
    requires reported == [ExtractingAudio] + [AudioExtracted, ConvertingSpeech] + [TranscriptionCompleted] + [TranslatingToPersian] + [TranslationCompleted]
    requires done == [ExtractAudio] + [Transcribe] + [WriteEnglish] + [Translate]
    requires opts.embed && st.result.Failed? && st.result.stage == Embed
    requires st.trail == reported + [AddingSubtitles] + [ProcessingError]
    requires st.stages == OutputStages(done, opts.bilingual)
    ensures WellFormedRun(st, opts)
  {
    assert st.trail[..7] == SuccessTrail(true)[..7];
    assert Plan(opts.bilingual, true) == st.stages + [Embed];
  }

  /**
   * The English subtitles are written before the translator is loaded and
   * the error path deletes nothing: when loading fails, the run fails at
   * the translation stage with the English file in place and the engine
   * never called.
   */
  lemma {:induction false} EnglishKeptWhenTranslationFails(video: string, whisper: Transcriber.WhisperModel,
                                        load: Result<Translator.ModelId, Translator.TranslatorError>,
                                        opts: Options, tools: Tools, files: map<string, string>)
    requires tools.extract(video).Ok?
    requires tools.recognize(whisper, tools.extract(video).value, "en").Ok?
    requires load.Err?
    ensures var en := Transcriber.NormalizeSegments(tools.recognize(whisper, tools.extract(video).value, "en").value.segments);
      var st := Pipeline(video, whisper, load, opts, tools, files);
      st.result == Failed(Translate, load.error.message)
      && st.files == files[SubtitlePath(Paths.PathStem(video), "en") := SubtitleGenerator.SrtContent(en)]
      && st.stages == [ExtractAudio, Transcribe, WriteEnglish]
      && st.engineInputs == []
  {
    var en := Transcriber.NormalizeSegments(tools.recognize(whisper, tools.extract(video).value, "en").value.segments);
    var reported := [ExtractingAudio] + [AudioExtracted, ConvertingSpeech] + [TranscriptionCompleted];
    var done := [ExtractAudio] + [Transcribe];
    var stages := done + [WriteEnglish];
    assert stages == [ExtractAudio, Transcribe, WriteEnglish];
    PipelineTranscribed(video, whisper, load, opts, tools, files, reported, done);
    TranslationFails(video, en, load, opts, tools, files, reported, done);
    assert Pipeline(video, whisper, load, opts, tools, files).stages == stages;
  }

  /**
   * The translation menu's initial entry names no checkpoint: with a
   * translator that has loaded nothing yet, a run that gets past the speech
   * stage fails at translation with `Unsupported model: Google Translate
   * (googletrans)`, after writing the English subtitles.
   */
  lemma {:induction false} DefaultChoiceFailsAtTranslation(video: string, whisper: Transcriber.WhisperModel, name: string,
                                        opts: Options, tools: Tools, files: map<string, string>)
    requires name == DefaultTranslationChoice
    requires tools.extract(video).Ok?
    requires tools.recognize(whisper, tools.extract(video).value, "en").Ok?
    ensures var st := Pipeline(video, whisper, LoadFor(None, name), opts, tools, files);
      st.result == Failed(Translate, "Unsupported model: " + name)
      && SubtitlePath(Paths.PathStem(video), "en") in st.files
      && st.engineInputs == []
  {
    var load := LoadFor(None, name);
    Translator.GoogleTranslateUnsupported(name);
    assert load == Err(Translator.UnsupportedModelError("Unsupported model: " + name));
    EnglishKeptWhenTranslationFails(video, whisper, load, opts, tools, files);
  }

  /**
   * The translator loads once per window: after a run that got past the
   * speech stage with the 418M menu entry, a later run with the initial
   * (unsupported) entry still translates with the 418M checkpoint, and
   * does not fail at translation.
   */
  lemma {:induction false} LoadedModelServesLaterRuns(entry: string, video: string, whisper: Transcriber.WhisperModel,
                                                      opts: Options, tools: Tools, files: map<string, string>)
    requires entry == "M2M100 418M (m2m100_418M)"
    requires Transcribed(video, whisper, tools)
    ensures var held := Kept(LoadFor(None, entry), None);
      held == Some(Translator.M2M100_418M)
      && LoadFor(held, DefaultTranslationChoice) == Ok(Translator.M2M100_418M)
      && Translate in Pipeline(video, whisper, LoadFor(held, DefaultTranslationChoice), opts, tools, files).stages
  {
    SmallMenuEntryResolves(entry);
    TranslatedRunKeepsStage(video, whisper, Ok(Translator.M2M100_418M), opts, tools, files);
  }

  /** A run that gets past the speech stage with a loaded translator completes the translation stage. */
  lemma {:induction false} TranslatedRunKeepsStage(video: string, whisper: Transcriber.WhisperModel,
                                                   load: Result<Translator.ModelId, Translator.TranslatorError>,
                                                   opts: Options, tools: Tools, files: map<string, string>)
    requires Transcribed(video, whisper, tools) && load.Ok?
    ensures Translate in Pipeline(video, whisper, load, opts, tools, files).stages
  {
    var en := Transcriber.NormalizeSegments(tools.recognize(whisper, tools.extract(video).value, "en").value.segments);
    var reported := [ExtractingAudio] + [AudioExtracted, ConvertingSpeech] + [TranscriptionCompleted];
    var done := [ExtractAudio] + [Transcribe];
    PipelineTranscribed(video, whisper, load, opts, tools, files, reported, done);
    TranslationSucceeds(video, en, load, opts, tools, files, reported, done);
    var fa := PairWithTimings(en, Translator.BatchTranslations(load.value, TextsOf(en), tools.engine));
    var written := files[SubtitlePath(Paths.PathStem(video), "en") := SubtitleGenerator.SrtContent(en)];
    var done' := done + [WriteEnglish] + [Translate];
    OutputKeepsStages(video, en, fa, opts, tools, written, reported + [TranslatingToPersian] + [TranslationCompleted],
                      done', Translator.EngineInputs(TextsOf(en)));
    assert done'[3] == Translate;
  }

  /** The last stages only add to the stages completed before them. */
  lemma {:induction false} OutputKeepsStages(video: string, en: seq<Segment>, fa: seq<Segment>, opts: Options, tools: Tools,
                                             files: map<string, string>, reported: seq<Report>, done: seq<Stage>,
                                             inputs: seq<seq<string>>)
    ensures var stages := Output(video, en, fa, opts, tools, files, reported, done, inputs).stages;
      |done| <= |stages| && stages[..|done|] == done
  {
    var base := OutputStages(done, opts.bilingual);
    assert base[..|done|] == done;
    assert (base + [Embed])[..|done|] == done;
  }

  /** The 418M entry of the translation menu selects the small checkpoint. */
  lemma {:induction false} SmallMenuEntryResolves(entry: string)
    requires entry == "M2M100 418M (m2m100_418M)"
    ensures Translator.ResolveModel(entry) == Ok(Translator.M2M100_418M)
  {
    assert entry[13..24] == "m2m100_418M";
    Translator.ContainsAt(entry, "m2m100_418M", 13);
  }

  /** The 1.2B entry of the translation menu selects the large checkpoint. */
  lemma {:induction false} LargeMenuEntryResolves(entry: string)
    requires entry == "M2M100 1.2B (m2m100_1.2B)"
    ensures Translator.ResolveModel(entry) == Ok(Translator.M2M100_1_2B)
  {
    assert entry[13..24] == "m2m100_1.2B";
    Translator.ContainsAt(entry, "m2m100_1.2B", 13);
    LargeEntryIsNotSmall(entry, "m2m100_418M");
  }

  lemma {:induction false} LargeEntryIsNotSmall(entry: string, p: string)
    requires entry == "M2M100 1.2B (m2m100_1.2B)" && p == "m2m100_418M"
    ensures !Text.Contains(entry, p)
  {
    assert p[7] == '4';
    Translator.AbsentChar(entry, p, 7);
  }

  /** Subtitle files of the same video with tags that start differently have different paths. */
  lemma {:induction false} SubtitlePathsDiffer(video: string, a: string, b: string)
    requires |a| > 0 && |b| > 0 && a[0] != b[0]
    ensures SubtitlePath(Paths.PathStem(video), a) != SubtitlePath(Paths.PathStem(video), b)
  {
    var stem := Paths.PathStem(video);
    VideoProcessor.StemHasNoSlash(Paths.Name(video));
    var na, nb := stem + "_" + a + ".srt", stem + "_" + b + ".srt";
    RelativeName(stem, a);
    RelativeName(stem, b);
    assert na[|stem| + 1] != nb[|stem| + 1];
    JoinDistinct(Paths.JoinPath(Settings.OutputDir, "subtitles"), na, nb);
  }

  /** A subtitle file name built from a slash-free stem is relative and not empty. */
  lemma {:induction false} RelativeName(stem: string, tag: string)
    requires forall j :: 0 <= j < |stem| ==> stem[j] != '/'
    ensures var name := stem + "_" + tag + ".srt";
      name != "" && !Text.StartsWith(name, "/") && name[|stem| + 1..|stem| + 1 + |tag|] == tag
  {
    var name := stem + "_" + tag + ".srt";
    assert name[..1][0] == name[0];
  }

  /** Joining two different relative names to one directory gives two different paths. */
  lemma {:induction false} JoinDistinct(dir: string, a: string, b: string)
    requires a != "" && b != "" && !Text.StartsWith(a, "/") && !Text.StartsWith(b, "/") && a != b
    ensures Paths.JoinPath(dir, a) != Paths.JoinPath(dir, b)
  {
    if dir != "" {
      assert (dir + "/" + a)[|dir| + 1..] == a;
      assert (dir + "/" + b)[|dir| + 1..] == b;
    }
  }

  /**
   * A run that gets past translation writes the English, the Persian and,
   * when chosen, the bilingual subtitles, whether or not embedding follows
   * or fails, and leaves every other file as it was.
   */
  lemma {:induction false} SubtitlesWritten(video: string, whisper: Transcriber.WhisperModel,
                         load: Result<Translator.ModelId, Translator.TranslatorError>,
                         opts: Options, tools: Tools, files: map<string, string>)
    requires tools.extract(video).Ok?
    requires tools.recognize(whisper, tools.extract(video).value, "en").Ok?
    requires load.Ok?
    ensures var en := Transcriber.NormalizeSegments(tools.recognize(whisper, tools.extract(video).value, "en").value.segments);
      var fa := PairWithTimings(en, Translator.BatchTranslations(load.value, TextsOf(en), tools.engine));
      var stem := Paths.PathStem(video);
      var written := {SubtitlePath(stem, "en"), SubtitlePath(stem, "fa")}
        + (if opts.bilingual then {SubtitlePath(stem, "bilingual")} else {});
      var st := Pipeline(video, whisper, load, opts, tools, files);
      st.files.Keys == files.Keys + written
      && st.files[SubtitlePath(stem, "en")] == SubtitleGenerator.SrtContent(en)
      && st.files[SubtitlePath(stem, "fa")] == SubtitleGenerator.SrtContent(fa)
      && (opts.bilingual ==> st.files[SubtitlePath(stem, "bilingual")] == SubtitleGenerator.BilingualContent(en, fa))
      && forall p :: p in files && p !in written ==> st.files[p] == files[p]
  {
    var en := Transcriber.NormalizeSegments(tools.recognize(whisper, tools.extract(video).value, "en").value.segments);
    var fa := PairWithTimings(en, Translator.BatchTranslations(load.value, TextsOf(en), tools.engine));
    var stem := Paths.PathStem(video);
    var reported := [ExtractingAudio] + [AudioExtracted, ConvertingSpeech] + [TranscriptionCompleted];
    var done := [ExtractAudio] + [Transcribe];
    var written := files[SubtitlePath(stem, "en") := SubtitleGenerator.SrtContent(en)];
    var reported' := reported + [TranslatingToPersian] + [TranslationCompleted];
    var done' := done + [WriteEnglish] + [Translate];
    var inputs := Translator.EngineInputs(TextsOf(en));
    PipelineTranscribed(video, whisper, load, opts, tools, files, reported, done);
    TranslationSucceeds(video, en, load, opts, tools, files, reported, done);
    if !opts.embed {
      OutputPlain(video, en, fa, opts, tools, written, reported', done', inputs);
    } else if tools.run(RunCommand(video)).Some? {
      OutputMuxFails(video, en, fa, opts, tools, written, reported', done', inputs);
    } else {
      OutputMuxes(video, en, fa, opts, tools, written, reported', done', inputs);
    }
    FilesWritten(video, en, fa, opts.bilingual, files);
  }

  /** The files after the three subtitle writes of a run, whatever was there before. */
  lemma {:induction false} FilesWritten(video: string, en: seq<Segment>, fa: seq<Segment>, bilingual: bool,
                                        files: map<string, string>)
    ensures var stem := Paths.PathStem(video);
      var written := {SubtitlePath(stem, "en"), SubtitlePath(stem, "fa")}
        + (if bilingual then {SubtitlePath(stem, "bilingual")} else {});
      var m := OutputFiles(stem, en, fa, bilingual, files[SubtitlePath(stem, "en") := SubtitleGenerator.SrtContent(en)]);
      m.Keys == files.Keys + written
      && m[SubtitlePath(stem, "en")] == SubtitleGenerator.SrtContent(en)
      && m[SubtitlePath(stem, "fa")] == SubtitleGenerator.SrtContent(fa)
      && (bilingual ==> m[SubtitlePath(stem, "bilingual")] == SubtitleGenerator.BilingualContent(en, fa))
      && forall p :: p in files && p !in written ==> m[p] == files[p]
  {
    var stem := Paths.PathStem(video);
    var a, b, c := SubtitlePath(stem, "en"), SubtitlePath(stem, "fa"), SubtitlePath(stem, "bilingual");
    var x, y, z := SubtitleGenerator.SrtContent(en), SubtitleGenerator.SrtContent(fa),
                   SubtitleGenerator.BilingualContent(en, fa);
    assert OutputFiles(stem, en, fa, bilingual, files[a := x])
        == if bilingual then files[a := x][b := y][c := z] else files[a := x][b := y] by {
    }
    SubtitlePathsDistinct(video);
    ThreeWrites(files, a, b, c, x, y, z, bilingual);
  }

  /** Writing two or three different files: each holds what was written last, and nothing else changes. */
  lemma {:induction false} ThreeWrites(files: map<string, string>, a: string, b: string, c: string,
                                       x: string, y: string, z: string, third: bool)
    requires a != b && a != c && b != c
    ensures var m := if third then files[a := x][b := y][c := z] else files[a := x][b := y];
      var written := {a, b} + (if third then {c} else {});
      m.Keys == files.Keys + written
      && m[a] == x && m[b] == y && (third ==> m[c] == z)
      && forall p :: p in files && p !in written ==> m[p] == files[p]
  {
  }

  /** The English, Persian and bilingual subtitle files of a video are three different files. */
  lemma {:induction false} SubtitlePathsDistinct(video: string)
    ensures var stem := Paths.PathStem(video);
      SubtitlePath(stem, "en") != SubtitlePath(stem, "fa")
      && SubtitlePath(stem, "en") != SubtitlePath(stem, "bilingual")
      && SubtitlePath(stem, "fa") != SubtitlePath(stem, "bilingual")
  {
    SubtitlePathsDiffer(video, "en", "fa");
    SubtitlePathsDiffer(video, "en", "bilingual");
    SubtitlePathsDiffer(video, "fa", "bilingual");
  }

  /** Without embedding, the run never consults ffmpeg: any runner gives the same run. */
  lemma {:induction false} RunnerUnusedWithoutEmbedding(video: string, whisper: Transcriber.WhisperModel,
                                     load: Result<Translator.ModelId, Translator.TranslatorError>,
                                     opts: Options, tools: Tools, files: map<string, string>,
                                     other: VideoProcessor.Runner)
    requires !opts.embed
    ensures Pipeline(video, whisper, load, opts, tools, files)
      == Pipeline(video, whisper, load, opts, tools.(run := other), files)
  {
  }

  /**
   * The mux of a run takes the video, then the English and the Persian
   * subtitles (the bilingual file is never embedded), and the explicit
   * output name it passes is the one `add_subtitles` would choose anyway.
   */
  lemma {:induction false} RunCommandInputs(video: string)
    ensures var stem := Paths.PathStem(video);
      var subs := [("eng", SubtitlePath(stem, "en")), ("per", SubtitlePath(stem, "fa"))];
      RunCommand(video).inputs == [video, SubtitlePath(stem, "en"), SubtitlePath(stem, "fa")]
      && RunCommand(video) == VideoProcessor.MuxCommand(video, subs, None)
      && RunCommand(video).options == VideoProcessor.OutputArgs
  {
    var stem := Paths.PathStem(video);
    var subs := [("eng", SubtitlePath(stem, "en")), ("per", SubtitlePath(stem, "fa"))];
    VideoProcessor.InputsInOrder(subs);
  }

  /**
   * The Persian texts are paired with the English timings by position, so a
   * slice that mixes blank and non-blank lines shifts them: here the
   * translation of the third line lands on the second line's timing and the
   * third line gets no Persian cue.
   */
  lemma {:induction false} MixedSliceShiftsPersian(en: seq<Segment>, m: Translator.ModelId, engine: Translator.Engine)
    requires Translator.OnePerInput(engine)
    requires en == [Segment("Hello", 0.0, 1.0), Segment("", 1.0, 2.0), Segment("Bye", 2.0, 3.0)]
    ensures var fa := PairWithTimings(en, Translator.BatchTranslations(m, TextsOf(en), engine));
      |fa| == 2 && fa[1].start == en[1].start && fa[1].end == en[1].end
      && fa[1].text == Text.Strip(engine(m, [en[0].text, en[2].text])[1])
  {
    var texts := TextsOf(en);
    assert texts == [en[0].text, en[1].text, en[2].text];
    assert !Text.IsBlank(texts[0]) by { assert !Text.IsSpace(texts[0][0]); }
    assert !Text.IsBlank(texts[2]) by { assert !Text.IsSpace(texts[2][0]); }
    ThreeLineFilter(texts);
    OneSliceBatch(m, texts, engine);
  }

  /** Filtering a blank line between two real ones keeps the outer two. */
  lemma {:induction false} ThreeLineFilter(texts: seq<string>)
    requires |texts| == 3 && !Text.IsBlank(texts[0]) && Text.IsBlank(texts[1]) && !Text.IsBlank(texts[2])
    ensures Translator.NonBlank(texts) == [texts[0], texts[2]]
  {
    var a, b, c := [texts[0]], [texts[1]], [texts[2]];
    Translator.NonBlankSingle(texts[0]);
    Translator.NonBlankSingle(texts[1]);
    Translator.NonBlankSingle(texts[2]);
    Translator.NonBlankAppend(a, b);
    Translator.NonBlankAppend(a + b, c);
    assert texts == a + b + c;
  }

  /** Input that fits one slice and is not all blank goes to the engine in one call. */
  lemma {:induction false} OneSliceBatch(m: Translator.ModelId, texts: seq<string>, engine: Translator.Engine)
    requires 0 < |texts| <= Settings.BatchSize && Translator.NonBlank(texts) != []
    ensures Translator.BatchTranslations(m, texts, engine) == Translator.StripAll(engine(m, Translator.NonBlank(texts)))
  {
    assert texts[..|texts|] == texts && texts[|texts|..] == [];
  }

  /**
   * `start_processing` starts a run exactly when the file exists, is a
   * regular file of a supported format, can be read, and is at most
   * 2000 MB; otherwise it reports the first failing check.
   */
  lemma {:induction false} AdmissionIffValid(path: string, facts: Validators.FileFacts)
    ensures Admission(path, facts) == Started <==>
      facts.present && facts.isFile && Validators.Extension(path) in Validators.SupportedVideoFormats
      && facts.readable && facts.sizeBytes <= 2000 * Validators.BytesPerMb
    ensures Validators.ValidateVideoFile(path, facts).Err? ==>
      Admission(path, facts) == Invalid(Validators.ValidateVideoFile(path, facts).error)
  {
    Validators.SizeLimitInBytes(facts.sizeBytes, 2000);
  }
}
