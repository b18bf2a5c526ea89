# sumo.ai subtitle pipeline — a Dafny model

sumo.ai turns an English video into English and Persian SRT subtitles and can
mux both tracks back into the video as soft subtitles. This project models the
deterministic core of that pipeline and proves properties of it:

- **Validation** (`utils/validators.py`): the guard order of
  `validate_video_file` (existence, regular file, case-insensitive extension
  whitelist, readability) and the megabyte limit of `validate_file_size`.
- **Transcription wrapper** (`core/transcriber.py`): the load-once memo of
  the Whisper model, the pass-through `transcribe`, and `get_segments`.
- **Translation glue** (`core/translator.py`): the checkpoint dispatch of
  `load_model` with its `UnsupportedModelError`, the load-once memo, the
  blank-text short-circuit of `translate_text`, and the slice-by-8 loop of
  `translate_batch` that filters out blank texts.
- **SRT rendering** (`core/subtitle_generator.py`): `format_timestamp`, and
  the cue lines and file content of `generate_srt` and
  `create_bilingual_srt`.
- **Muxing** (`core/video_processor.py`): the output name and path, the input
  list and metadata built by `add_subtitles`, the command handed to ffmpeg,
  and the wrapping of an ffmpeg failure.
- **File helpers** (`utils/file_handler.py`): `get_safe_filename`, and the
  unit choice of `format_size`.
- **The main window** (`ui/main_window.py`): the admission rule of
  `start_processing`, and the stage sequence of `process_video`. That
  sequence covers the status reports and their progress values, the
  subtitle files written, the pairing of Persian texts with English timings,
  the two optional stages, and the run's result.

Each source file has one module:

| module | source file |
|---|---|
| `Validators` | `utils/validators.py` |
| `Transcriber` | `core/transcriber.py` |
| `Translator` | `core/translator.py` |
| `SubtitleGenerator` | `core/subtitle_generator.py` |
| `VideoProcessor` | `core/video_processor.py` |
| `FileHandler` | `utils/file_handler.py` |
| `MainWindow` | `ui/main_window.py` |
| `Settings` | `settings.py` (the constants the core reads) |

Three support modules give Python's built-in behaviour the meaning the code
relies on:

- `Text`: `str.strip`, `str.isspace`, `str(n)`, `f"{n:02d}"`, `in`, `lower`,
  `upper`, `"\n".join`, `split("\n")`.
- `Paths`: `pathlib`'s `.name`, `.suffix`, `.stem` and `/`.
- `Storage`: the written files, as a map from path to content.

Objects whose methods update their own fields are classes with those fields:

- `Transcriber.Transcriber` and `Translator.Translator` (`model` is set once);
- `MainWindow.MainWindow` (`video_path`, `processing`, the option values,
  plus the status reports and completed stages as histories);
- `Storage.Disk`.

The loops in the source are methods with invariants, each proved against a
specification function: the SRT loops, the translation batching loop, the
`get_segments` loop, the `add_subtitles` loop, the `zip` pairing loop, the
`get_safe_filename` loop and the `format_size` loop. The whole of
`process_video` is `MainWindow.MainWindow.ProcessVideo`. Its contract ties
its result, the files, the reports, the stages and the translation-engine
calls to the pure function `MainWindow.Pipeline`. The lemmas about
`Pipeline` state what every run does.

The collaborators are function-typed parameters:

- audio extraction, `AudioExtractor`;
- Whisper recognition, `Transcriber.Recognizer`;
- tokenising + `generate` + `decode`, `Translator.Engine`;
- `ffmpeg.run`, `VideoProcessor.Runner`;
- and, for the validators, what the file system reports about a path
  (`Validators.FileFacts`).

Times are exact reals. Python's `//`, `%` and `int()` on floats are written
out (floored division and remainder, truncation toward zero).

In two places the code does something other than what its own structure
suggests was meant. The model follows the code in both:

- `translate_batch` maps an all-blank slice of eight to one `""` per text
  (`core/translator.py:83-85`), which suggests one output per input. In a
  slice that mixes blank and non-blank texts, however, the blank ones are
  dropped (`core/translator.py:81`, `:107-112`). The result is then shorter
  than the input, and `process_video` pairs the Persian texts with the
  English timings by position. `Translator.BatchLength` states exactly when
  the lengths agree. `Translator.MixedSliceShrinks` and
  `MainWindow.MixedSliceShiftsPersian` show the shift.
- `add_subtitles` builds a `-metadata` list with a language and a title for
  each subtitle track (`core/video_processor.py:40-47`), but the command it
  hands to ffmpeg is built from the inputs, the output path and the codec
  options only (`core/video_processor.py:58-62`). The tracks are therefore
  not tagged. `VideoProcessor.LanguagesNotPassed` states this.

## Model

| member | source | states |
|---|---|---|
| Text.Strip | core/translator.py:68 | `s.strip()` is a slice of `s` with only whitespace removed on either side, and it neither starts nor ends with whitespace |
| Text.StripEmptyIffBlank | core/translator.py:40-41 | `not text.strip()` holds exactly when the text is empty or all whitespace |
| Text.StripIdempotent | core/transcriber.py:67 | stripping an already stripped text changes nothing |
| Text.ContainsIffOccurs | core/translator.py:22-26 | the `in` test used by the checkpoint dispatch means "occurs at some position" |
| Text.ParseNatToString | core/subtitle_generator.py:43 | the cue number `str(i)` is a decimal rendering that reads back as `i` |
| Text.ZeroPadReadsBack | core/subtitle_generator.py:26 | `f"{n:02d}"` / `f"{n:03d}"` has max(width, digits) digits and reads back as `n` |
| Text.ZeroPadInt | core/subtitle_generator.py:21-26 | `f"{n:02d}"` of any integer is at least the width long and reads back as `n`: the digits of its absolute value, behind a `-` for a negative `n` |
| Text.SplitJoinLines | core/subtitle_generator.py:61 | splitting `'\n'.join(lines)` at newlines gives back the lines when none holds a newline |
| Paths.LastIndexOf | core/video_processor.py:27 | the last occurrence search that `.name`, `.suffix` and `.stem` rest on finds the last position or -1 |
| Paths.Name | core/video_processor.py:27 | `.name` is slash-free and never `.`: trailing `/` and `.` components are dropped first, as pathlib does |
| Paths.NameOfLast | core/video_processor.py:27 | a path whose last component is a plain name (not empty, not `.`) has that name, with or without a directory before it |
| Paths.NameTrailingSlash | utils/validators.py:21 | a trailing `/` leaves the name unchanged |
| Paths.NameTrailingDot | utils/validators.py:21 | a trailing `/.` component leaves the name unchanged |
| Paths.NameSlashExample | utils/validators.py:21 | `dir/clip.mp4/` has the name `clip.mp4` |
| Paths.NameDotExample | core/video_processor.py:27 | `dir/.` has the name `dir` |
| Paths.Suffix | utils/validators.py:21 | `.suffix` is non-empty exactly when the last dot of the name is neither its first nor its last character, and is then the tail from that dot: a dot followed by dot-free characters |
| Paths.SuffixExample | utils/validators.py:21 | `dir/clip.mp4/` has the suffix `.mp4` |
| Paths.Stem | core/video_processor.py:27 | `.stem` followed by `.suffix` is the name |
| Paths.NameOfJoin | core/video_processor.py:29 | joining a plain file name to a directory yields a path whose `.name` is that file name |
| Validators.ValidateVideoFile | utils/validators.py:11-31 | accepts (with `True`) exactly when the path exists, is a regular file, has a supported extension in any case, and is readable |
| Validators.MissingComesFirst | utils/validators.py:15-16 | a missing path raises `FileNotFoundError`, whatever else holds of it |
| Validators.NotAFileIsValueError | utils/validators.py:18-19 | an existing path that is not a regular file raises `ValueError("Invalid file path: ...")` |
| Validators.FormatBeforePermission | utils/validators.py:21-29 | an unsupported extension is reported before readability is consulted |
| Validators.UnreadableIsPermissionError | utils/validators.py:28-29 | an unreadable file of a supported format raises `PermissionError` |
| Validators.ExtensionCaseInsensitive | utils/validators.py:21-22 | paths whose extensions agree up to case get the same verdict |
| Validators.UpperCaseMp4Accepted | utils/validators.py:21-22 | a readable regular `.MP4` file is accepted |
| Validators.ValidateFileSize | utils/validators.py:34-44 | passes with `True`, or fails with the size in MB and the limit |
| Validators.SizeLimitInBytes | utils/validators.py:36-38 | the check fails exactly when the byte count exceeds `max_size_mb * 1048576`; the limit is inclusive |
| Validators.DefaultLimitBoundary | utils/validators.py:34-38 | exactly 2000 MB passes the default limit, one byte more fails |
| Transcriber.Normalize | core/transcriber.py:66-70 | a segment keeps its timing; its text is stripped, and empty exactly when the raw text is blank |
| Transcriber.NormalizeSegments | core/transcriber.py:63-72 | one segment per raw segment, in order, with the stripped text and the unchanged timing |
| Transcriber.NormalizeIdempotent | core/transcriber.py:67 | every text `get_segments` returns is already stripped |
| Transcriber.NormalizeBlank | core/transcriber.py:67 | a segment comes out with empty text exactly when its raw text is blank |
| Transcriber.Transcriber.constructor | core/transcriber.py:11-14 | keeps the name and device, nothing loaded |
| Transcriber.Transcriber.Default | core/transcriber.py:11 | the defaults are the settings' model `base` on `cpu` |
| Transcriber.Transcriber.LoadModel | core/transcriber.py:17-23 | loads the named model for the device only when none is loaded; later calls keep the first model |
| Transcriber.Transcriber.Transcribe | core/transcriber.py:26-51 | loads, then returns the recogniser's result for the loaded model unchanged, language `en` by default |
| Transcriber.Transcriber.GetSegments | core/transcriber.py:53-72 | the loop yields NormalizeSegments of the result |
| Translator.ResolveModel | core/translator.py:21-31 | a name containing `m2m100_418M` picks the small checkpoint; one containing `m2m100_1.2B` but not `m2m100_418M` picks the large one; a name containing neither is refused with `Unsupported model: <name>` |
| Translator.ResolveCheckpoint | core/translator.py:24-29 | each checkpoint identifier selects its own checkpoint |
| Translator.DefaultModelIsSmall | core/translator.py:13 | the default model `facebook/m2m100_418M` loads the 418M checkpoint |
| Translator.GoogleTranslateUnsupported | core/translator.py:30-31 | `Google Translate (googletrans)` is refused as unsupported |
| Translator.NonBlank | core/translator.py:81 | the filtered slice holds only texts of the slice, none of them blank, and every non-blank text of the slice |
| Translator.NonBlankAppend | core/translator.py:81 | filtering a concatenation is filtering each part and concatenating, so the filter keeps order and multiplicity |
| Translator.NonBlankSingle | core/translator.py:81 | a single text is kept exactly when it is not blank |
| Translator.NonBlankLength | core/translator.py:81-83 | the filtered slice is empty exactly when all texts are blank, and keeps its length exactly when none is |
| Translator.SliceTranslations | core/translator.py:78-112 | what one slice adds to `translations`; its length and content are stated by SliceContribution |
| Translator.SliceContribution | core/translator.py:83-112 | a slice contributes `len(batch)` strings when all blank and one per non-blank text otherwise, so it keeps its length exactly when it is not mixed; all strings are stripped |
| Translator.SlicesAreConsecutive | core/translator.py:77-78 | the slices are `texts[8k : min(8k+8, n)]`, ceil(n/8) of them, covering the input in order |
| Translator.BatchTranslations | core/translator.py:74-114 | the list `translate_batch` returns; stated by SlicesAreConsecutive, BatchLength, BatchStripped and AllBlankBatch |
| Translator.BatchLength | core/translator.py:77-114 | the result is never longer than the input, and has its length exactly when no slice mixes blank and non-blank texts |
| Translator.BatchStripped | core/translator.py:107-110 | every returned translation is stripped |
| Translator.AllBlankBatch | core/translator.py:83-85 | an all-blank input gives that many empty strings and the engine is never called |
| Translator.EngineSeesNoBlank | core/translator.py:81-98 | the engine only ever receives non-empty lists of at most eight non-blank texts |
| Translator.MixedSliceShrinks | core/translator.py:81-112 | `["Hello", ""]` yields a single translation |
| Translator.Translator.constructor | core/translator.py:13-17 | keeps the name, nothing loaded, device `cuda` exactly when a GPU is available |
| Translator.Translator.LoadModel | core/translator.py:19-34 | loads model and tokenizer together only while nothing is loaded; an unsupported name fails without loading, so a later call retries |
| Translator.Translator.TranslateText | core/translator.py:36-68 | loads first (errors even for blank text, loading nothing), then keeps the loaded model for later calls; answers blank text with `""` without calling the engine, otherwise the stripped single output |
| Translator.Translator.TranslateBatch | core/translator.py:70-114 | loads first and keeps the loaded model for later calls (an unsupported name loads nothing); then the loop returns BatchTranslations of the loaded checkpoint and calls the engine with exactly EngineInputs |
| SubtitleGenerator.PyMod | core/subtitle_generator.py:22-24 | Python's float `%` by a positive modulus is the floored remainder: the one value in [0, m) that differs from `x` by a whole multiple of `m` |
| SubtitleGenerator.ClockOf | core/subtitle_generator.py:21-24 | minutes and seconds are in 0..59, milliseconds in 0..999, and the hours are non-negative exactly for a non-negative time |
| SubtitleGenerator.FormatTimestamp | core/subtitle_generator.py:11-26 | `format_timestamp`; its text is stated by FormatTimestampParses and the worked examples below |
| SubtitleGenerator.TimestampTruncates | core/subtitle_generator.py:21-24 | the fields stand for a time at most `seconds` and less than 1 ms earlier: nothing is rounded up |
| SubtitleGenerator.FormatTimestampParses | core/subtitle_generator.py:21-26 | for a non-negative time the text is `HH:MM:SS,mmm` with at least two hour digits (never wrapped at 24) and reads back as the computed fields |
| SubtitleGenerator.TimestampOfZero | core/subtitle_generator.py:21-26 | 0 s renders as `00:00:00,000` |
| SubtitleGenerator.TimestampOfHourAndMore | core/subtitle_generator.py:21-26 | 3725.4 s renders as `01:02:05,400` |
| SubtitleGenerator.TimestampTruncatesMillis | core/subtitle_generator.py:24-26 | 1.9996 s renders as `00:00:01,999`, not rounded |
| SubtitleGenerator.TimestampOfHundredHours | core/subtitle_generator.py:21-26 | 360000 s renders as `100:00:00,000` |
| SubtitleGenerator.SrtLines | core/subtitle_generator.py:39-54 | the lines `generate_srt` collects; stated by SrtLinesShape |
| SubtitleGenerator.SrtLinesShape | core/subtitle_generator.py:41-54 | N segments give 4N lines; lines 4k..4k+3 are number k+1, the timing line, the text and a blank line |
| SubtitleGenerator.BuildSrtLines | core/subtitle_generator.py:39-54 | the loop builds exactly those lines |
| SubtitleGenerator.SrtContent | core/subtitle_generator.py:61 | no segments write an empty file |
| SubtitleGenerator.SrtContentSplits | core/subtitle_generator.py:39-61 | when no text holds a newline, the written file splits back into its 4N lines |
| SubtitleGenerator.GenerateSrt | core/subtitle_generator.py:28-64 | writes the joined lines to the path (replacing it, no other file touched) and returns the path |
| SubtitleGenerator.BilingualLines | core/subtitle_generator.py:80-92 | the lines `create_bilingual_srt` collects; stated by BilingualLinesShape, BilingualIgnoresSecondaryTiming and BilingualPrefix |
| SubtitleGenerator.BilingualLinesShape | core/subtitle_generator.py:82-92 | min(len(en), len(fa)) cues of five lines, timing from the English segment, English text before Persian |
| SubtitleGenerator.BilingualIgnoresSecondaryTiming | core/subtitle_generator.py:85-86 | the Persian segments' timings never reach the file |
| SubtitleGenerator.BilingualPrefix | core/subtitle_generator.py:82 | `zip` stops at the shorter list: only the common prefix matters |
| SubtitleGenerator.BilingualContent | core/subtitle_generator.py:82-98 | an empty side writes an empty file |
| SubtitleGenerator.BuildBilingualLines | core/subtitle_generator.py:80-92 | the loop builds exactly the bilingual lines |
| SubtitleGenerator.CreateBilingualSrt | core/subtitle_generator.py:66-101 | writes the joined bilingual lines to the path and returns it |
| VideoProcessor.OutputPath | core/video_processor.py:26-29 | `OUTPUT_DIR / output_name`, the default name when none is given; stated by DefaultOutputFile |
| VideoProcessor.MuxCommand | core/video_processor.py:50-62 | the command has the video as its first input, then each subtitle file in mapping order, the output path and the three codec options, and nothing else |
| VideoProcessor.ErrorMessage | core/video_processor.py:73-75 | the error text always starts with `Error adding subtitle: ` |
| VideoProcessor.ErrorMessageSource | core/video_processor.py:74 | the detail is the captured stderr when non-empty, else `str(e)` |
| VideoProcessor.BuildStreams | core/video_processor.py:37-50 | the video then one input per subtitle file, and four metadata entries per track |
| VideoProcessor.MetadataTracks | core/video_processor.py:40-47 | track i owns entries 4i..4i+3: its key twice, `language=<lang>` and `title=<LANG>` |
| VideoProcessor.InputsInOrder | core/video_processor.py:40-50 | the subtitle inputs are the mapping's files in order |
| VideoProcessor.LanguagesNotPassed | core/video_processor.py:38-62 | the language codes never reach ffmpeg: mappings with the same files give the same command |
| VideoProcessor.DefaultOutputFile | core/video_processor.py:26-29 | without a name the output is `<stem>_subtitled.mkv` in the output directory, an `.mkv` whatever the input |
| VideoProcessor.AddSubtitles | core/video_processor.py:12-75 | returns the output path when ffmpeg succeeds, otherwise `RuntimeError` with ErrorMessage |
| FileHandler.SafeFilename | utils/file_handler.py:44-49 | same length; each invalid character becomes `_`, every other character stays |
| FileHandler.GetSafeFilename | utils/file_handler.py:44-49 | the replace loop yields SafeFilename |
| FileHandler.SafeHasNoInvalid | utils/file_handler.py:46-48 | the result holds none of the nine characters `<>:"/\?*` and the vertical bar |
| FileHandler.SafeIdempotent | utils/file_handler.py:44-49 | sanitising twice is sanitising once |
| FileHandler.SafeKeepsCleanName | utils/file_handler.py:44-49 | a clean name is returned unchanged |
| FileHandler.SafeExample | utils/file_handler.py:44-49 | `Q&A: why?` becomes `Q&A_ why_` |
| FileHandler.UnitIndex | utils/file_handler.py:17-23 | the first of B, KB, MB, GB whose scaled value is below 1024, else TB |
| FileHandler.FormatSize | utils/file_handler.py:17-23 | the loop returns the size divided by 1024 per unit passed, with that unit |
| FileHandler.FormatSizeExample | utils/file_handler.py:17-23 | 1536 bytes are 1.5 KB |
| MainWindow.SubtitlePath | ui/main_window.py:239 | `OUTPUT_DIR / "subtitles" / f"{video_name}_{tag}.srt"`; stated by SubtitlePathsDistinct |
| MainWindow.Pipeline | ui/main_window.py:221-302 | the run of `process_video` as a value; stated by RunShape, SubtitlesWritten and the stage lemmas below |
| MainWindow.TextsOf | ui/main_window.py:246 | one text per English segment, in order |
| MainWindow.PairWithTimings | ui/main_window.py:250-256 | min(len(en), len(texts)) Persian segments, each the translated text with the English segment's timing |
| MainWindow.PairTranslations | ui/main_window.py:250-256 | the `zip` loop yields PairWithTimings |
| MainWindow.SuccessTrail | ui/main_window.py:227-289 | a completed run reports 8 statuses with embedding and 7 without |
| MainWindow.SuccessProgress | ui/main_window.py:227-289 | a completed run's progress starts at 0, ends at 1 with `Processing complete! ✓`, and never goes back |
| MainWindow.Admission | ui/main_window.py:204-212 | the two validators in order decide whether the run starts |
| MainWindow.AdmissionIffValid | ui/main_window.py:204-212 | the run starts exactly when the file exists, is a regular readable file of a supported format and is at most 2000 MB; otherwise the first failing check is reported |
| MainWindow.MainWindow.constructor | ui/main_window.py:30-31 | no video, not processing, Whisper `base`, the Google translation entry, bilingual off, embedding on, nothing loaded |
| MainWindow.MainWindow.SelectVideo | ui/main_window.py:168-181 | a chosen path replaces the current one; a cancelled dialog changes nothing |
| MainWindow.MainWindow.StartProcessing | ui/main_window.py:195-219 | ignored while running, a warning without a video, the validation error when refused, otherwise starts with `processing` set |
| MainWindow.MainWindow.ProcessVideo | ui/main_window.py:221-302 | the run of Pipeline with the chosen model names, `processing` cleared however it ends; a run past the speech stage sets the translator's name and leaves it holding the checkpoint it loaded or already held, an earlier stop leaves the translator as it was; both devices unchanged |
| MainWindow.MainWindow.SaveAndTranslate | ui/main_window.py:238-258 | the English file, then the translation and pairing, as Translation describes; the translator keeps the checkpoint it loaded or already held |
| MainWindow.MainWindow.TranslateTexts | ui/main_window.py:243-247 | sets the chosen model name; load failure (nothing loaded) or the batch translation of the loaded checkpoint, which the translator then holds; the device is unchanged |
| MainWindow.MainWindow.SaveAndEmbed | ui/main_window.py:260-289 | Persian, optional bilingual, optional mux, as Output describes |
| MainWindow.PipelineNoAudio | ui/main_window.py:227-228 | an extraction failure ends the run at once, no file written |
| MainWindow.PipelineNotRecognised | ui/main_window.py:232-234 | a recognition failure ends the run after the audio stage, no file written |
| MainWindow.TranslationFails | ui/main_window.py:239-247 | a translator that cannot load fails the run after the English file is written |
| MainWindow.OutputMuxFails | ui/main_window.py:275-287 | a failed mux fails the run with all subtitle files written |
| MainWindow.RunShape | ui/main_window.py:221-302 | every run completes with the whole success sequence and plan, or fails after a prefix of both with the error report at progress 0 |
| MainWindow.EnglishKeptWhenTranslationFails | ui/main_window.py:238-247 | when loading fails the English file stays, the stages are extract, transcribe, write English, and the engine is never called |
| MainWindow.DefaultChoiceFailsAtTranslation | ui/main_window.py:121 | while the translator has loaded nothing, the menu's initial entry makes a run that gets past the speech stage fail with `Unsupported model: Google Translate (googletrans)` |
| MainWindow.LoadedModelServesLaterRuns | ui/main_window.py:244-247 | after a run has loaded the 418M checkpoint, a later run with the initial menu entry still translates with it |
| MainWindow.TranslatedRunKeepsStage | ui/main_window.py:242-258 | with a loaded translator, a run that gets past the speech stage completes the translation stage |
| MainWindow.SmallMenuEntryResolves | ui/main_window.py:116 | the 418M menu entry selects the small checkpoint |
| MainWindow.LargeMenuEntryResolves | ui/main_window.py:117 | the 1.2B menu entry selects the large checkpoint |
| MainWindow.SubtitlePathsDistinct | ui/main_window.py:239-266 | the English, Persian and bilingual files of a video are three different files |
| MainWindow.SubtitlesWritten | ui/main_window.py:238-271 | a run past translation writes English, Persian and, if chosen, bilingual subtitles with their contents, whatever the mux does, and leaves every other file alone |
| MainWindow.RunnerUnusedWithoutEmbedding | ui/main_window.py:274-275 | without embedding ffmpeg is never consulted |
| MainWindow.RunCommandInputs | ui/main_window.py:278-287 | the mux takes the video, then the English and Persian files (never the bilingual one), and the explicit name equals the default |
| MainWindow.MixedSliceShiftsPersian | ui/main_window.py:246-256 | a blank middle line makes the third line's translation land on the second line's timing |
| Storage.Disk.Write | core/subtitle_generator.py:60-61 | one file is created or overwritten, no other changes |

## Left out

- Python's float arithmetic: times and sizes are exact reals, so rounding artefacts of binary floats (e.g. `3725.4 % 1` not being exactly 0.4) are not modelled.
- FileHandler.FormatSize: returns the number and the unit, not the `.2f` text.
- Validators.ValidateFileSize: the error keeps the exact size in MB rather than its `.2f` rendering in the message.
- `BASE_DIR` is resolved at start-up. The model uses the relative path `output` for `OUTPUT_DIR`, and `pathlib` joining is modelled for POSIX paths only.
- Text.Lower and Text.Upper: map ASCII letters only, where Python's `lower`/`upper` map all of Unicode. The extensions and language codes involved are ASCII.
- The Whisper model, the M2M100 tokenizer and model, `generate` and `decode` are abstract function parameters. This includes their truncation at `MAX_TRANSLATION_LENGTH` (512), their beam settings and the torch device placement.
- Audio extraction and `ffmpeg.run` are function parameters. `core/audio_extractor.py` is not part of this model.
- `check_ffmpeg_installed`, `get_file_size`, `ensure_directory` and `clean_temp_files` are not modelled: each is a direct file-system or `PATH` query with no logic of its own.
- Directory creation (`mkdir(parents=True)`) and I/O errors while writing a file are not modelled; writes always succeed.
- The logger, the progress dialog, widget states, `after` scheduling, message boxes, the window title and the success/error dialogs are not modelled. Neither is the worker thread: a run is one sequential call.
- MainWindow.MainWindow.ProcessVideo: requires a selected video, because `process_video` is only started by `start_processing` after that check.
- MainWindow.MainWindow.ProcessVideo: is split into ProcessVideo, SaveAndTranslate, TranslateTexts and SaveAndEmbed to keep each proof small. Their composition is the whole of `process_video`.
- MainWindow.MainWindow.StartProcessing: takes what the file system reports about the selected path as a parameter.
- Transcriber.Transcriber.LoadModel: always succeeds. In the source a failing `whisper.load_model` leaves the memo empty, so the next run tries again; the model has no such failure.
- Exceptions other than those the source raises by name (e.g. from `open`) are not modelled. Every failure a collaborator reports ends the run through the common `except` branch.
