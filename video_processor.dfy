/**
 * Soft-subtitle muxing (core/video_processor.py): the output name and path,
 * the input list and per-track metadata built by `add_subtitles`, the
 * command handed to ffmpeg, and the wrapping of an ffmpeg failure.
 */
module VideoProcessor {
  import opened Text
  import opened Wrappers
  import Paths
  import Settings

  /**
   * The stream graph `ffmpeg.output(*inputs, output_path, **output_args)`
   * describes: input files in order, the output file and the output options.
   */
  datatype Command = Command(inputs: seq<string>, output: string, options: seq<(string, string)>)

  /** `ffmpeg.Error`: the captured standard error (decoded), if any, and `str(e)`. */
  datatype FfmpegError = FfmpegError(stderr: Option<string>, text: string)

  /** `ffmpeg.run(stream, overwrite_output=True, capture_stderr=True)`: success, or the error it raises. */
  type Runner = Command -> Option<FfmpegError>

  /** The `RuntimeError` `add_subtitles` raises. */
  datatype MuxError = RuntimeError(message: string)

  /** `output_args`: copy video and audio, write subtitles as SRT. */
  const OutputArgs: seq<(string, string)> := [("c:v", "copy"), ("c:a", "copy"), ("c:s", "srt")]

  /** `f"{Path(video_path).stem}_subtitled.mkv"`. */
  function DefaultOutputName(videoPath: string): string {
    Paths.PathStem(videoPath) + "_subtitled.mkv"
  }

  /** The name used: the given one, or the default when none is given. */
  function OutputName(videoPath: string, outputName: Option<string>): string {
    if outputName.Some? then outputName.value else DefaultOutputName(videoPath)
  }

  /** `OUTPUT_DIR / output_name`. */
  function OutputPath(videoPath: string, outputName: Option<string>): string {
    Paths.JoinPath(Settings.OutputDir, OutputName(videoPath, outputName))
  }

  /** The four metadata entries of track `i`. */
  function TrackMetadata(i: nat, lang: string): seq<string> {
    var key := "-metadata:s:s:" + NatToString(i);
    [key, "language=" + lang, key, "title=" + Upper(lang)]
  }

  /** `metadata` after the loop over the enumerated mapping. */
  function Metadata(subs: seq<(string, string)>): seq<string>
    decreases |subs|
  {
    if subs == [] then []
    else Metadata(subs[..|subs| - 1]) + TrackMetadata(|subs| - 1, subs[|subs| - 1].0)
  }

  /** `subtitle_inputs` after the loop: the subtitle files in mapping order. */
  function SubtitleInputs(subs: seq<(string, string)>): seq<string>
    decreases |subs|
  {
    if subs == [] then []
    else SubtitleInputs(subs[..|subs| - 1]) + [subs[|subs| - 1].1]
  }

  /** The command `add_subtitles` runs. The metadata list is built but not part of it. */
  function MuxCommand(videoPath: string, subs: seq<(string, string)>, outputName: Option<string>): (c: Command)
    ensures |c.inputs| == |subs| + 1 && c.inputs[0] == videoPath
    ensures forall k :: 0 <= k < |subs| ==> c.inputs[k + 1] == subs[k].1
    ensures c.output == OutputPath(videoPath, outputName) && c.options == OutputArgs
  {
    InputsInOrder(subs);
    Command([videoPath] + SubtitleInputs(subs), OutputPath(videoPath, outputName), OutputArgs)
  }

  /** `e.stderr.decode() if e.stderr else str(e)`, behind the fixed prefix. */
  function ErrorMessage(e: FfmpegError): (m: string)
    ensures StartsWith(m, "Error adding subtitle: ")
  {
    var detail := if e.stderr.Some? && e.stderr.value != "" then e.stderr.value else e.text;
    "Error adding subtitle: " + detail
  }

  /**
   * The loop of `add_subtitles` over `enumerate(subtitle_paths.items())`:
   * one input per subtitle file and four metadata entries per track.
   */
  method BuildStreams(videoPath: string, subs: seq<(string, string)>)
    returns (inputs: seq<string>, metadata: seq<string>)
    ensures inputs == [videoPath] + SubtitleInputs(subs)
    ensures metadata == Metadata(subs)
    ensures |inputs| == |subs| + 1 && |metadata| == 4 * |subs|
  {
    var subtitleInputs: seq<string> := [];
    metadata := [];
    var i := 0;
    while i < |subs|
      invariant 0 <= i <= |subs|
      invariant subtitleInputs == SubtitleInputs(subs[..i])
      invariant metadata == Metadata(subs[..i])
      invariant |subtitleInputs| == i && |metadata| == 4 * i
    {
      var (lang, subPath) := subs[i];
      assert subs[..i + 1][..i] == subs[..i];
      subtitleInputs := subtitleInputs + [subPath];
      metadata := metadata + [
        "-metadata:s:s:" + NatToString(i),
        "language=" + lang,
        "-metadata:s:s:" + NatToString(i),
        "title=" + Upper(lang)
      ];
      i := i + 1;
    }
    assert subs[..i] == subs;
    inputs := [videoPath] + subtitleInputs;
  }

  /**
   * `add_subtitles`: runs the mux command and returns the output path, or
   * raises `RuntimeError` with the ffmpeg error text.
   */
  method AddSubtitles(videoPath: string, subs: seq<(string, string)>, outputName: Option<string>, run: Runner)
    returns (r: Result<string, MuxError>)
    ensures run(MuxCommand(videoPath, subs, outputName)).None? ==> r == Ok(OutputPath(videoPath, outputName))
    ensures run(MuxCommand(videoPath, subs, outputName)).Some? ==>
      r == Err(RuntimeError(ErrorMessage(run(MuxCommand(videoPath, subs, outputName)).value)))
  {
    var name := if outputName.None? then DefaultOutputName(videoPath) else outputName.value;
    var outputPath := Paths.JoinPath(Settings.OutputDir, name);
    var inputs, metadata := BuildStreams(videoPath, subs);
    var failure := run(Command(inputs, outputPath, OutputArgs));
    if failure.Some? {
      return Err(RuntimeError(ErrorMessage(failure.value)));
    }
    r := Ok(outputPath);
  }

  // ---------------------------------------------------------------------------
  // Properties
  // ---------------------------------------------------------------------------

  /**
   * Track `i` (0-based) holds entries `4i .. 4i+3` of the metadata: its key
   * `-metadata:s:s:i` twice, `language=<lang>` and `title=<LANG>`.
   */
  lemma {:induction false} MetadataTracks(subs: seq<(string, string)>, i: nat)
    requires i < |subs|
    ensures |Metadata(subs)| == 4 * |subs|
    ensures Metadata(subs)[4 * i..4 * i + 4] == TrackMetadata(i, subs[i].0)
    decreases |subs|
  {
    var n := |subs|;
    MetadataLength(subs[..n - 1]);
    if i < n - 1 {
      MetadataTracks(subs[..n - 1], i);
      assert Metadata(subs)[4 * i..4 * i + 4] == Metadata(subs[..n - 1])[4 * i..4 * i + 4];
    } else {
      assert Metadata(subs)[4 * i..4 * i + 4] == TrackMetadata(n - 1, subs[n - 1].0);
    }
  }

  lemma {:induction false} MetadataLength(subs: seq<(string, string)>)
    ensures |Metadata(subs)| == 4 * |subs|
    decreases |subs|
  {
    if subs != [] {
      MetadataLength(subs[..|subs| - 1]);
    }
  }

  /** The inputs are the video, then each subtitle file in mapping order. */
  lemma {:induction false} InputsInOrder(subs: seq<(string, string)>)
    ensures |SubtitleInputs(subs)| == |subs|
    ensures forall k :: 0 <= k < |subs| ==> SubtitleInputs(subs)[k] == subs[k].1
    decreases |subs|
  {
    if subs != [] {
      InputsInOrder(subs[..|subs| - 1]);
    }
  }

  /**
   * The language codes never reach ffmpeg: two mappings with the same
   * files in the same order give the same command, so the output tracks
   * are not tagged.
   */
  lemma {:induction false} LanguagesNotPassed(videoPath: string, subs: seq<(string, string)>,
                                              other: seq<(string, string)>, outputName: Option<string>)
    requires |subs| == |other|
    requires forall k :: 0 <= k < |subs| ==> subs[k].1 == other[k].1
    ensures MuxCommand(videoPath, subs, outputName) == MuxCommand(videoPath, other, outputName)
    decreases |subs|
  {
    InputsInOrder(subs);
    InputsInOrder(other);
    assert SubtitleInputs(subs) == SubtitleInputs(other);
  }

  /**
   * Without an explicit name the output lands in the output directory under
   * `<video stem>_subtitled.mkv`, an `.mkv` name whatever the input's
   * container.
   */
  lemma DefaultOutputFile(videoPath: string)
    ensures Paths.Name(OutputPath(videoPath, None)) == Paths.PathStem(videoPath) + "_subtitled.mkv"
    ensures Paths.Suffix(Paths.Name(OutputPath(videoPath, None))) == ".mkv"
  {
    var stem := Paths.PathStem(videoPath);
    StemHasNoSlash(Paths.Name(videoPath));
    SubtitledName(stem, "_subtitled.mkv");
    Paths.NameOfJoin(Settings.OutputDir, stem + "_subtitled.mkv");
  }

  /** Appending the fixed tail to a slash-free stem gives a slash-free `.mkv` name. */
  lemma SubtitledName(stem: string, tail: string)
    requires forall j :: 0 <= j < |stem| ==> stem[j] != '/'
    requires tail == "_subtitled.mkv"
    ensures forall j :: 0 <= j < |stem + tail| ==> (stem + tail)[j] != '/'
    ensures Paths.Suffix(stem + tail) == ".mkv"
  {
    var name := stem + tail;
    assert forall j :: |stem| <= j < |name| ==> name[j] == tail[j - |stem|];
    var dot := |stem| + 10;
    assert name[dot..] == tail[10..];
    Paths.LastIndexOfAt(name, '.', dot);
  }

  /** A stem is part of its name, so it holds no `/` when the name does not. */
  lemma StemHasNoSlash(name: string)
    requires forall j :: 0 <= j < |name| ==> name[j] != '/'
    ensures forall j :: 0 <= j < |Paths.Stem(name)| ==> Paths.Stem(name)[j] != '/'
  {
    var stem := Paths.Stem(name);
    assert stem + Paths.Suffix(name) == name;
    assert forall j :: 0 <= j < |stem| ==> stem[j] == name[j];
  }

  /** The error text prefers the captured standard error and falls back to the exception text. */
  lemma ErrorMessageSource(e: FfmpegError)
    ensures e.stderr.Some? && e.stderr.value != "" ==> ErrorMessage(e) == "Error adding subtitle: " + e.stderr.value
    ensures e.stderr.None? || e.stderr.value == "" ==> ErrorMessage(e) == "Error adding subtitle: " + e.text
  {
  }
}
