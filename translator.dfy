/**
 * Batch-translation glue (core/translator.py): which checkpoint a model name
 * selects, the load-once memo, the blank-text short-circuit, and the batching
 * loop of `translate_batch`.
 *
 * Tokenising, `generate` and `decode` are one abstract collaborator, an
 * Engine: given the loaded checkpoint and a list of source texts it returns
 * the decoded (not yet stripped) translations.
 */
module Translator {
  import opened Text
  import opened Wrappers
  import Settings

  /** The two checkpoints `load_model` knows how to load. */
  datatype ModelId = M2M100_418M | M2M100_1_2B

  /** `UnsupportedModelError` and its message. */
  datatype TranslatorError = UnsupportedModelError(message: string)

  /** The checkpoint identifier handed to `from_pretrained`. */
  function Checkpoint(m: ModelId): string {
    match m
    case M2M100_418M => "facebook/m2m100_418M"
    case M2M100_1_2B => "facebook/m2m100_1.2B"
  }

  /**
   * The dispatch of `load_model`: a name mentioning `m2m100_418M` selects the
   * small checkpoint, otherwise one mentioning `m2m100_1.2B` selects the large
   * one, and any other name is refused with `Unsupported model: <name>`.
   */
  function ResolveModel(name: string): (r: Result<ModelId, TranslatorError>)
    ensures r.Ok? <==> Contains(name, "m2m100_418M") || Contains(name, "m2m100_1.2B")
    ensures Contains(name, "m2m100_418M") ==> r == Ok(M2M100_418M)
    ensures r == Ok(M2M100_1_2B) ==> !Contains(name, "m2m100_418M")
    ensures !Contains(name, "m2m100_418M") && Contains(name, "m2m100_1.2B") ==> r == Ok(M2M100_1_2B)
    ensures r.Err? ==> r.error.message == "Unsupported model: " + name
  {
    if Contains(name, "m2m100_418M") then Ok(M2M100_418M)
    else if Contains(name, "m2m100_1.2B") then Ok(M2M100_1_2B)
    else Err(UnsupportedModelError("Unsupported model: " + name))
  }

  /** `p` occurs in `s` at position `i`. */
  lemma ContainsAt(s: string, p: string, i: nat)
    requires i + |p| <= |s| && s[i..i + |p|] == p
    ensures Contains(s, p)
  {
    ContainsIffOccurs(s, p);
    assert StartsWith(s[i..], p);
  }

  /** A text shorter than the pattern cannot contain it. */
  lemma {:induction false} TooShort(s: string, p: string)
    requires |s| < |p|
    ensures !Contains(s, p)
    decreases |s|
  {
    if |s| > 0 {
      TooShort(s[1..], p);
    }
  }

  /** No occurrence is possible when some character of `p` never appears in `s`. */
  lemma {:induction false} AbsentChar(s: string, p: string, k: nat)
    requires k < |p| && forall i :: 0 <= i < |s| ==> s[i] != p[k]
    ensures !Contains(s, p)
    decreases |s|
  {
    if |s| > 0 {
      AbsentChar(s[1..], p, k);
      if |p| <= |s| {
        assert s[..|p|][k] != p[k];
      }
    }
  }

  /** The small checkpoint identifier selects the small checkpoint. */
  lemma ResolveSmall(name: string)
    requires name == "facebook/m2m100_418M"
    ensures ResolveModel(name) == Ok(M2M100_418M)
  {
    ContainsAt(name, "m2m100_418M", 9);
  }

  /** The large checkpoint identifier does not mention the small one. */
  lemma LargeIsNotSmall(name: string, p: string)
    requires name == "facebook/m2m100_1.2B" && p == "m2m100_418M"
    ensures !Contains(name, p)
  {
    assert p[7] == '4';
    AbsentChar(name, p, 7);
  }

  /** The large checkpoint identifier selects the large checkpoint. */
  lemma ResolveLarge(name: string)
    requires name == "facebook/m2m100_1.2B"
    ensures ResolveModel(name) == Ok(M2M100_1_2B)
  {
    ContainsAt(name, "m2m100_1.2B", 9);
    LargeIsNotSmall(name, "m2m100_418M");
  }

  /** Each checkpoint identifier selects its own checkpoint. */
  lemma ResolveCheckpoint(m: ModelId, name: string)
    requires name == Checkpoint(m)
    ensures ResolveModel(name) == Ok(m)
  {
    if m == M2M100_418M {
      ResolveSmall(name);
    } else {
      ResolveLarge(name);
    }
  }

  /** The default model of the settings loads the 418M checkpoint. */
  lemma DefaultModelIsSmall()
    ensures ResolveModel(Settings.TranslationModel) == Ok(M2M100_418M)
  {
    ResolveSmall(Settings.TranslationModel);
  }

  /**
   * The first entry of the window's translation-model menu,
   * `Google Translate (googletrans)`, is refused: it names neither checkpoint.
   */
  lemma GoogleTranslateUnsupported(name: string)
    requires name == "Google Translate (googletrans)"
    ensures ResolveModel(name) == Err(UnsupportedModelError("Unsupported model: " + name))
  {
    AbsentChar(name, "m2m100_418M", 0);
    AbsentChar(name, "m2m100_1.2B", 0);
  }

  // ---------------------------------------------------------------------------
  // The engine and one batch
  // ---------------------------------------------------------------------------

  /** Tokenise, `generate` with the Persian start token, and `decode`, for a list of texts. */
  type Engine = (ModelId, seq<string>) -> seq<string>

  /** The engine answers every input with exactly one output, as `generate` does for a padded batch. */
  ghost predicate OnePerInput(engine: Engine) {
    forall m, xs :: |engine(m, xs)| == |xs|
  }

  /** `[t for t in batch if t.strip()]`: the items that are not all whitespace, in order. */
  function NonBlank(batch: seq<string>): (r: seq<string>)
    ensures |r| <= |batch|
    ensures forall k :: 0 <= k < |r| ==> !IsBlank(r[k])
    ensures forall k :: 0 <= k < |batch| && !IsBlank(batch[k]) ==> batch[k] in r
    ensures forall k :: 0 <= k < |r| ==> r[k] in batch
    decreases |batch|
  {
    if batch == [] then []
    else
      var rest := NonBlank(batch[1..]);
      assert forall k :: 1 <= k < |batch| ==> batch[k] == batch[1..][k - 1];
      (if IsBlank(batch[0]) then [] else [batch[0]]) + rest
  }

  /**
   * Filtering a concatenation filters each part: with NonBlankSingle this
   * fixes NonBlank as the in-order filter, since every list is a
   * concatenation of singletons.
   */
  lemma {:induction false} NonBlankAppend(a: seq<string>, b: seq<string>)
    ensures NonBlank(a + b) == NonBlank(a) + NonBlank(b)
    decreases |a|
  {
    if a != [] {
      assert (a + b)[1..] == a[1..] + b;
      NonBlankAppend(a[1..], b);
    } else {
      assert a + b == b;
    }
  }

  /** A single text is kept exactly when it is not blank. */
  lemma NonBlankSingle(t: string)
    ensures NonBlank([t]) == if IsBlank(t) then [] else [t]
  {
    assert [t][1..] == [];
  }

  /** Every item is whitespace only. */
  predicate AllBlank(batch: seq<string>) {
    forall k :: 0 <= k < |batch| ==> IsBlank(batch[k])
  }

  /** Both a blank and a non-blank item occur. */
  predicate Mixed(batch: seq<string>) {
    (exists k :: 0 <= k < |batch| && IsBlank(batch[k]))
      && (exists k :: 0 <= k < |batch| && !IsBlank(batch[k]))
  }

  /** No slice mixes blank and non-blank items. */
  predicate AllUnmixed(slices: seq<seq<string>>) {
    forall k :: 0 <= k < |slices| ==> !Mixed(slices[k])
  }

  /**
   * Filtering keeps every non-blank item: it is empty exactly when all items
   * are blank, and it keeps the length exactly when none is.
   */
  lemma {:induction false} NonBlankLength(batch: seq<string>)
    ensures NonBlank(batch) == [] <==> AllBlank(batch)
    ensures |NonBlank(batch)| == |batch| <==> forall k :: 0 <= k < |batch| ==> !IsBlank(batch[k])
    decreases |batch|
  {
    if batch != [] {
      NonBlankLength(batch[1..]);
      assert forall k :: 1 <= k < |batch| ==> batch[k] == batch[1..][k - 1];
      if IsBlank(batch[0]) {
        assert |NonBlank(batch)| < |batch|;
      } else {
        assert NonBlank(batch) != [];
      }
    }
  }

  /** `.strip()` of every decoded output. */
  function StripAll(xs: seq<string>): (r: seq<string>)
    ensures |r| == |xs| && forall k :: 0 <= k < |xs| ==> r[k] == Strip(xs[k])
  {
    seq(|xs|, k requires 0 <= k < |xs| => Strip(xs[k]))
  }

  /**
   * What one slice adds to `translations`: `len(batch)` empty strings when
   * every item is blank, otherwise the stripped engine outputs for the
   * non-blank items only.
   */
  function SliceTranslations(m: ModelId, batch: seq<string>, engine: Engine): seq<string> {
    var nonEmpty := NonBlank(batch);
    if nonEmpty == [] then Repeat("", |batch|) else StripAll(engine(m, nonEmpty))
  }

  /**
   * With a one-output-per-input engine a slice contributes `len(batch)`
   * strings when all of it is blank and one per non-blank item otherwise, so
   * it keeps its length exactly when it is not mixed; every string it
   * contributes is already stripped.
   */
  lemma SliceContribution(m: ModelId, batch: seq<string>, engine: Engine)
    requires OnePerInput(engine)
    ensures var out := SliceTranslations(m, batch, engine);
      |out| == (if AllBlank(batch) then |batch| else |NonBlank(batch)|)
      && (|out| == |batch| <==> !Mixed(batch))
      && forall k :: 0 <= k < |out| ==> Strip(out[k]) == out[k]
  {
    NonBlankLength(batch);
    var out := SliceTranslations(m, batch, engine);
    forall k | 0 <= k < |out| ensures Strip(out[k]) == out[k] {
      if NonBlank(batch) == [] {
        StripEmptyIffBlank(out[k]);
      } else {
        StripIdempotent(engine(m, NonBlank(batch))[k]);
      }
    }
  }

  // ---------------------------------------------------------------------------
  // The batching loop
  // ---------------------------------------------------------------------------

  /** Python's clamped slice end: `texts[i:i + BATCH_SIZE]` stops at `n`. */
  function SliceEnd(i: nat, n: nat): nat {
    if i + Settings.BatchSize <= n then i + Settings.BatchSize else n
  }

  /** The slices `texts[i:i+8]` for `i in range(0, len(texts), 8)`, in order. */
  function Slices(texts: seq<string>): seq<seq<string>>
    decreases |texts|
  {
    if texts == [] then []
    else
      var e := SliceEnd(0, |texts|);
      [texts[..e]] + Slices(texts[e..])
  }

  /** The list `translate_batch` returns for loaded checkpoint `m`. */
  function BatchTranslations(m: ModelId, texts: seq<string>, engine: Engine): seq<string>
    decreases |texts|
  {
    if texts == [] then []
    else
      var e := SliceEnd(0, |texts|);
      SliceTranslations(m, texts[..e], engine) + BatchTranslations(m, texts[e..], engine)
  }

  /** The lists handed to the engine, one per slice that is not all blank, in order. */
  function EngineInputs(texts: seq<string>): seq<seq<string>>
    decreases |texts|
  {
    if texts == [] then []
    else
      var e := SliceEnd(0, |texts|);
      var nonEmpty := NonBlank(texts[..e]);
      (if nonEmpty == [] then [] else [nonEmpty]) + EngineInputs(texts[e..])
  }

  /**
   * The slices are consecutive and cover the input: slice `k` is
   * `texts[8k : min(8k + 8, n)]`, and there are `ceil(n / 8)` of them.
   */
  lemma {:induction false} SlicesAreConsecutive(texts: seq<string>)
    ensures |Slices(texts)| == (|texts| + 7) / 8
    ensures forall k :: 0 <= k < |Slices(texts)| ==>
      8 * k < |texts| && Slices(texts)[k] == texts[8 * k..SliceEnd(8 * k, |texts|)]
    decreases |texts|
  {
    if texts != [] {
      var e := SliceEnd(0, |texts|);
      var rest := texts[e..];
      SlicesAreConsecutive(rest);
      if |texts| > 8 {
        forall k | 1 <= k < |Slices(texts)|
          ensures 8 * k < |texts| && Slices(texts)[k] == texts[8 * k..SliceEnd(8 * k, |texts|)]
        {
          assert Slices(texts)[k] == Slices(rest)[k - 1];
          assert rest[8 * (k - 1)..SliceEnd(8 * (k - 1), |rest|)] == texts[8 * k..SliceEnd(8 * k, |texts|)];
        }
      }
    }
  }

  /**
   * With a one-output-per-input engine the result is never longer than the
   * input, and it has the input's length exactly when no slice mixes blank
   * and non-blank items.
   */
  lemma {:induction false} BatchLength(m: ModelId, texts: seq<string>, engine: Engine)
    requires OnePerInput(engine)
    ensures |BatchTranslations(m, texts, engine)| <= |texts|
    ensures |BatchTranslations(m, texts, engine)| == |texts| <==> AllUnmixed(Slices(texts))
    decreases |texts|
  {
    if texts != [] {
      var e := SliceEnd(0, |texts|);
      var head, tail := texts[..e], texts[e..];
      SliceContribution(m, head, engine);
      BatchLength(m, tail, engine);
      UnmixedSplit(texts);
      var a, b := |SliceTranslations(m, head, engine)|, |BatchTranslations(m, tail, engine)|;
      assert |BatchTranslations(m, texts, engine)| == a + b;
      assert |texts| == |head| + |tail|;
    }
  }

  /** No slice is mixed exactly when the first is not and no later one is. */
  lemma UnmixedSplit(texts: seq<string>)
    requires texts != []
    ensures var e := SliceEnd(0, |texts|);
      AllUnmixed(Slices(texts)) <==> !Mixed(texts[..e]) && AllUnmixed(Slices(texts[e..]))
  {
    var e := SliceEnd(0, |texts|);
    UnmixedCons(texts[..e], Slices(texts[e..]));
  }

  lemma UnmixedCons(head: seq<string>, rest: seq<seq<string>>)
    ensures AllUnmixed([head] + rest) <==> !Mixed(head) && AllUnmixed(rest)
  {
    var ss := [head] + rest;
    if AllUnmixed(ss) {
      assert !Mixed(ss[0]);
      forall k | 0 <= k < |rest| ensures !Mixed(rest[k]) {
        assert rest[k] == ss[k + 1];
      }
    }
  }

  /** Every returned string is already stripped. */
  lemma {:induction false} BatchStripped(m: ModelId, texts: seq<string>, engine: Engine)
    requires OnePerInput(engine)
    ensures forall k :: 0 <= k < |BatchTranslations(m, texts, engine)| ==>
      Strip(BatchTranslations(m, texts, engine)[k]) == BatchTranslations(m, texts, engine)[k]
    decreases |texts|
  {
    if texts != [] {
      var e := SliceEnd(0, |texts|);
      SliceContribution(m, texts[..e], engine);
      BatchStripped(m, texts[e..], engine);
    }
  }

  /** All-blank input comes back as that many empty strings, and the engine is never called. */
  lemma {:induction false} AllBlankBatch(m: ModelId, texts: seq<string>, engine: Engine)
    requires AllBlank(texts)
    ensures BatchTranslations(m, texts, engine) == Repeat("", |texts|)
    ensures EngineInputs(texts) == []
    decreases |texts|
  {
    if texts != [] {
      var e := SliceEnd(0, |texts|);
      NonBlankLength(texts[..e]);
      AllBlankBatch(m, texts[e..], engine);
    }
  }

  /**
   * The engine only ever sees non-empty lists of at most eight non-blank
   * texts.
   */
  lemma {:induction false} EngineSeesNoBlank(texts: seq<string>)
    ensures forall j :: 0 <= j < |EngineInputs(texts)| ==>
      0 < |EngineInputs(texts)[j]| <= Settings.BatchSize
      && forall k :: 0 <= k < |EngineInputs(texts)[j]| ==> !IsBlank(EngineInputs(texts)[j][k])
    decreases |texts|
  {
    if texts != [] {
      var e := SliceEnd(0, |texts|);
      EngineSeesNoBlank(texts[e..]);
    }
  }

  /**
   * A slice mixing a real line with a blank one loses the blank line: two
   * inputs, one output. The caller pairs outputs with segments by position.
   */
  lemma MixedSliceShrinks(m: ModelId, engine: Engine)
    requires OnePerInput(engine)
    ensures |BatchTranslations(m, ["Hello", ""], engine)| == 1
  {
    var texts := ["Hello", ""];
    assert texts[0][0] == 'H' && !IsSpace('H');
    assert texts[..2] == texts;
    assert texts[1..] == [""];
    assert NonBlank(texts) == ["Hello"];
  }

  lemma AppendAssoc<T>(a: seq<T>, b: seq<T>, c: seq<T>)
    ensures (a + b) + c == a + (b + c)
  {
  }

  /** How much of the input the loop has consumed once its offset is `i`. */
  function Clamp(i: nat, n: nat): (c: nat)
    ensures c <= n && (i <= n ==> c == i) && (n <= i ==> c == n)
  {
    if i < n then i else n
  }

  /** One turn of the loop: the rest from offset `i` is the slice at `i`, then the rest after it. */
  lemma BatchStep(m: ModelId, texts: seq<string>, i: nat, engine: Engine)
    requires i < |texts|
    ensures var e := SliceEnd(i, |texts|);
      BatchTranslations(m, texts[i..], engine)
        == SliceTranslations(m, texts[i..e], engine) + BatchTranslations(m, texts[e..], engine)
      && EngineInputs(texts[i..])
        == (if NonBlank(texts[i..e]) == [] then [] else [NonBlank(texts[i..e])]) + EngineInputs(texts[e..])
  {
    var e := SliceEnd(i, |texts|);
    var rest := texts[i..];
    assert SliceEnd(0, |rest|) == e - i;
    assert rest[..e - i] == texts[i..e];
    assert rest[e - i..] == texts[e..];
  }

  // ---------------------------------------------------------------------------
  // The translator object
  // ---------------------------------------------------------------------------

  class Translator {
    var modelName: string
    var device: string
    var model: Option<ModelId>
    var tokenizer: Option<ModelId>
    /** The lists handed to the engine so far, in call order: its only visible effect. */
    var generated: seq<seq<string>>

    /** Model and tokenizer are loaded together from the same checkpoint. */
    predicate Valid()
      reads this
    {
      tokenizer == model
    }

    /** What `load_model` yields in the current state: the loaded checkpoint, or the dispatch on the name. */
    function Loaded(): Result<ModelId, TranslatorError>
      reads this
    {
      if model.Some? then Ok(model.value) else ResolveModel(modelName)
    }

    /** `Translator(model_name)`; the device is `cuda` when a GPU is available. */
    constructor (modelName: string, cudaAvailable: bool)
      ensures Valid() && this.modelName == modelName && model == None && generated == []
      ensures device == (if cudaAvailable then "cuda" else "cpu")
    {
      this.modelName := modelName;
      device := if cudaAvailable then "cuda" else "cpu";
      model := None;
      tokenizer := None;
      generated := [];
    }

    /**
     * `load_model`: loads only while nothing is loaded; on an unsupported
     * name it fails before touching either field, so a later call tries
     * again. Once loaded, renaming the model changes nothing.
     */
    method LoadModel() returns (r: Result<ModelId, TranslatorError>)
      requires Valid()
      modifies this`model, this`tokenizer
      ensures Valid()
      ensures r == old(Loaded())
      ensures old(model).Some? ==> model == old(model)
      ensures old(model).None? ==> model == (if r.Ok? then Some(r.value) else None)
    {
      if model.None? {
        r := ResolveModel(modelName);
        if r.Ok? {
          model := Some(r.value);
          tokenizer := Some(r.value);
        }
      } else {
        r := Ok(model.value);
      }
    }

    /**
     * `translate_text`: loads first (so an unsupported name fails even for
     * blank text), answers blank text with `""` without calling the engine,
     * and otherwise returns the stripped single output.
     */
    method TranslateText(text: string, engine: Engine) returns (r: Result<string, TranslatorError>)
      requires Valid() && OnePerInput(engine)
      modifies this`model, this`tokenizer, this`generated
      ensures Valid() && old(Loaded()) == Loaded()
      ensures old(Loaded()).Ok? ==> model == Some(old(Loaded()).value)
      ensures old(Loaded()).Err? ==> model == old(model)
      ensures old(Loaded()).Err? ==> r == Err(old(Loaded()).error) && generated == old(generated)
      ensures old(Loaded()).Ok? && IsBlank(text) ==> r == Ok("") && generated == old(generated)
      ensures old(Loaded()).Ok? && !IsBlank(text) ==>
        r == Ok(Strip(engine(old(Loaded()).value, [text])[0])) && generated == old(generated) + [[text]]
    {
      var loaded := LoadModel();
      if loaded.Err? {
        return Err(loaded.error);
      }
      StripEmptyIffBlank(text);
      if Strip(text) == [] {
        return Ok("");
      }
      var translated := engine(loaded.value, [text]);
      generated := generated + [[text]];
      r := Ok(Strip(translated[0]));
    }

    /**
     * `translate_batch`: loads first, then walks the input in slices of
     * `BATCH_SIZE`; the result is BatchTranslations of the loaded checkpoint,
     * and the engine receives exactly EngineInputs.
     */
    method TranslateBatch(texts: seq<string>, engine: Engine) returns (r: Result<seq<string>, TranslatorError>)
      requires Valid()
      modifies this`model, this`tokenizer, this`generated
      ensures Valid() && old(Loaded()) == Loaded()
      ensures old(Loaded()).Ok? ==> model == Some(old(Loaded()).value)
      ensures old(Loaded()).Err? ==> model == old(model)
      ensures old(Loaded()).Err? ==> r == Err(old(Loaded()).error) && generated == old(generated)
      ensures old(Loaded()).Ok? ==>
        r == Ok(BatchTranslations(old(Loaded()).value, texts, engine))
        && generated == old(generated) + EngineInputs(texts)
    {
      var loaded := LoadModel();
      if loaded.Err? {
        return Err(loaded.error);
      }
      var m := loaded.value;
      var translations: seq<string> := [];
      var i: nat := 0;
      while i < |texts|
        invariant model == Some(m) && tokenizer == Some(m)
        invariant translations + BatchTranslations(m, texts[Clamp(i, |texts|)..], engine)
          == BatchTranslations(m, texts, engine)
        invariant generated + EngineInputs(texts[Clamp(i, |texts|)..]) == old(generated) + EngineInputs(texts)
        decreases |texts| - i
      {
        var e := SliceEnd(i, |texts|);
        var batch := texts[i..e];
        BatchStep(m, texts, i, engine);
        ghost var translated0, generated0 := translations, generated;
        var nonEmpty := NonBlank(batch);
        ghost var sent: seq<seq<string>> := if nonEmpty == [] then [] else [nonEmpty];
        if nonEmpty == [] {
          translations := translations + Repeat("", |batch|);
          assert generated == generated0 + sent;
        } else {
          var translated := engine(m, nonEmpty);
          generated := generated + [nonEmpty];
          translations := translations + StripAll(translated);
        }
        assert translations == translated0 + SliceTranslations(m, batch, engine);
        AppendAssoc(translated0, SliceTranslations(m, batch, engine), BatchTranslations(m, texts[e..], engine));
        AppendAssoc(generated0, sent, EngineInputs(texts[e..]));
        i := i + Settings.BatchSize;
        assert Clamp(i, |texts|) == e;
      }
      assert Clamp(i, |texts|) == |texts| && texts[|texts|..] == [];
      assert translations == BatchTranslations(m, texts, engine);
      assert generated == old(generated) + EngineInputs(texts);
      r := Ok(translations);
    }
  }
}
