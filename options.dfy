/** The generation options sent with every request (AIMY.go:15-56, 74-79,
    88-125): the load-time `Runner` parameters embedded in the per-request
    `Options`, the documented defaults, and how `encoding/json` writes them
    given that every field is tagged `omitempty`. */
module ModelOptions {
  import opened Json

  /** Parameters fixed when the model is loaded. Floating-point fields hold
      the decimal literal of the source; Go writes a float32 as the shortest
      decimal that reads back to it, which for these literals is the literal. */
  datatype Runner = Runner(
    useNuma: bool,
    numCtx: int,
    numBatch: int,
    numGqa: int,
    numGpu: int,
    mainGpu: int,
    lowVram: bool,
    f16Kv: bool,
    logitsAll: bool,
    vocabOnly: bool,
    useMMap: bool,
    useMLock: bool,
    embeddingOnly: bool,
    ropeFrequencyBase: real,
    ropeFrequencyScale: real,
    numThread: int)

  /** Per-request sampling parameters, with the Runner embedded. */
  datatype Options = Options(
    runner: Runner,
    numKeep: int,
    seed: int,
    numPredict: int,
    topK: int,
    topP: real,
    tfsZ: real,
    typicalP: real,
    repeatLastN: int,
    temperature: real,
    repeatPenalty: real,
    presencePenalty: real,
    frequencyPenalty: real,
    mirostat: int,
    mirostatTau: real,
    mirostatEta: real,
    penalizeNewline: bool,
    stop: seq<string>)

  /** The request envelope the interactive loop marshals (type `Data`). */
  datatype Data = Data(model: string, prompt: string, system: string, options: Options)

  /** The serialized fields of the embedded Runner, in declaration order. */
  datatype RunnerField =
    | UseNuma | NumCtx | NumBatch | NumGqa | NumGpu | MainGpu | LowVram | F16Kv
    | LogitsAll | VocabOnly | UseMMap | UseMLock | EmbeddingOnly | RopeFrequencyBase
    | RopeFrequencyScale | NumThread

  /** The serialized fields Options declares itself, in declaration order. */
  datatype OptionField =
    | NumKeep | Seed | NumPredict | TopK | TopP | TfsZ | TypicalP | RepeatLastN
    | Temperature | RepeatPenalty | PresencePenalty | FrequencyPenalty | Mirostat
    | MirostatTau | MirostatEta | PenalizeNewline | Stop

  /** A key of the `options` object: json.Marshal promotes the fields of the
      embedded Runner into Options, so both kinds share one object. */
  datatype Field = OfRunner(runnerField: RunnerField) | OfOptions(optionField: OptionField)

  /** The order in which json.Marshal visits the fields: the embedded Runner
      sits at index 0 of Options, so its promoted fields come first, then the
      fields Options declares itself. */
  const Fields: seq<Field> := [
    OfRunner(UseNuma),
    OfRunner(NumCtx),
    OfRunner(NumBatch),
    OfRunner(NumGqa),
    OfRunner(NumGpu),
    OfRunner(MainGpu),
    OfRunner(LowVram),
    OfRunner(F16Kv),
    OfRunner(LogitsAll),
    OfRunner(VocabOnly),
    OfRunner(UseMMap),
    OfRunner(UseMLock),
    OfRunner(EmbeddingOnly),
    OfRunner(RopeFrequencyBase),
    OfRunner(RopeFrequencyScale),
    OfRunner(NumThread),
    OfOptions(NumKeep),
    OfOptions(Seed),
    OfOptions(NumPredict),
    OfOptions(TopK),
    OfOptions(TopP),
    OfOptions(TfsZ),
    OfOptions(TypicalP),
    OfOptions(RepeatLastN),
    OfOptions(Temperature),
    OfOptions(RepeatPenalty),
    OfOptions(PresencePenalty),
    OfOptions(FrequencyPenalty),
    OfOptions(Mirostat),
    OfOptions(MirostatTau),
    OfOptions(MirostatEta),
    OfOptions(PenalizeNewline),
    OfOptions(Stop)]

  /** The name in each Runner field's `json` struct tag. */
  function RunnerTag(f: RunnerField): string
  {
    match f
    case UseNuma => "numa"
    case NumCtx => "num_ctx"
    case NumBatch => "num_batch"
    case NumGqa => "num_gqa"
    case NumGpu => "num_gpu"
    case MainGpu => "main_gpu"
    case LowVram => "low_vram"
    case F16Kv => "f16_kv"
    case LogitsAll => "logits_all"
    case VocabOnly => "vocab_only"
    case UseMMap => "use_mmap"
    case UseMLock => "use_mlock"
    case EmbeddingOnly => "embedding_only"
    case RopeFrequencyBase => "rope_frequency_base"
    case RopeFrequencyScale => "rope_frequency_scale"
    case NumThread => "num_thread"
  }

  /** The name in each Options field's `json` struct tag. */
  function OptionTag(f: OptionField): string
  {
    match f
    case NumKeep => "num_keep"
    case Seed => "seed"
    case NumPredict => "num_predict"
    case TopK => "top_k"
    case TopP => "top_p"
    case TfsZ => "tfs_z"
    case TypicalP => "typical_p"
    case RepeatLastN => "repeat_last_n"
    case Temperature => "temperature"
    case RepeatPenalty => "repeat_penalty"
    case PresencePenalty => "presence_penalty"
    case FrequencyPenalty => "frequency_penalty"
    case Mirostat => "mirostat"
    case MirostatTau => "mirostat_tau"
    case MirostatEta => "mirostat_eta"
    case PenalizeNewline => "penalize_newline"
    case Stop => "stop"
  }

  /** The JSON name of a key of the `options` object. */
  function Tag(f: Field): string
  {
    match f
    case OfRunner(r) => RunnerTag(r)
    case OfOptions(p) => OptionTag(p)
  }

  /** The Runner field a JSON key names, if any. */
  function RunnerFieldOfTag(key: string): Option<RunnerField>
  {
    if key == "numa" then Some(UseNuma)
    else if key == "num_ctx" then Some(NumCtx)
    else if key == "num_batch" then Some(NumBatch)
    else if key == "num_gqa" then Some(NumGqa)
    else if key == "num_gpu" then Some(NumGpu)
    else if key == "main_gpu" then Some(MainGpu)
    else if key == "low_vram" then Some(LowVram)
    else if key == "f16_kv" then Some(F16Kv)
    else if key == "logits_all" then Some(LogitsAll)
    else if key == "vocab_only" then Some(VocabOnly)
    else if key == "use_mmap" then Some(UseMMap)
    else if key == "use_mlock" then Some(UseMLock)
    else if key == "embedding_only" then Some(EmbeddingOnly)
    else if key == "rope_frequency_base" then Some(RopeFrequencyBase)
    else if key == "rope_frequency_scale" then Some(RopeFrequencyScale)
    else if key == "num_thread" then Some(NumThread)
    else None
  }

  /** The Options field a JSON key names, if any. */
  function OptionFieldOfTag(key: string): Option<OptionField>
  {
    if key == "num_keep" then Some(NumKeep)
    else if key == "seed" then Some(Seed)
    else if key == "num_predict" then Some(NumPredict)
    else if key == "top_k" then Some(TopK)
    else if key == "top_p" then Some(TopP)
    else if key == "tfs_z" then Some(TfsZ)
    else if key == "typical_p" then Some(TypicalP)
    else if key == "repeat_last_n" then Some(RepeatLastN)
    else if key == "temperature" then Some(Temperature)
    else if key == "repeat_penalty" then Some(RepeatPenalty)
    else if key == "presence_penalty" then Some(PresencePenalty)
    else if key == "frequency_penalty" then Some(FrequencyPenalty)
    else if key == "mirostat" then Some(Mirostat)
    else if key == "mirostat_tau" then Some(MirostatTau)
    else if key == "mirostat_eta" then Some(MirostatEta)
    else if key == "penalize_newline" then Some(PenalizeNewline)
    else if key == "stop" then Some(Stop)
    else None
  }

  /** The JSON value json.Marshal writes for a Runner field. */
  function RunnerGet(r: Runner, f: RunnerField): Value
  {
    match f
    case UseNuma => Bool(r.useNuma)
    case NumCtx => Number(r.numCtx as real)
    case NumBatch => Number(r.numBatch as real)
    case NumGqa => Number(r.numGqa as real)
    case NumGpu => Number(r.numGpu as real)
    case MainGpu => Number(r.mainGpu as real)
    case LowVram => Bool(r.lowVram)
    case F16Kv => Bool(r.f16Kv)
    case LogitsAll => Bool(r.logitsAll)
    case VocabOnly => Bool(r.vocabOnly)
    case UseMMap => Bool(r.useMMap)
    case UseMLock => Bool(r.useMLock)
    case EmbeddingOnly => Bool(r.embeddingOnly)
    case RopeFrequencyBase => Number(r.ropeFrequencyBase)
    case RopeFrequencyScale => Number(r.ropeFrequencyScale)
    case NumThread => Number(r.numThread as real)
  }

  /** The JSON value json.Marshal writes for a field Options declares itself. */
  function OptionGet(o: Options, f: OptionField): Value
  {
    match f
    case NumKeep => Number(o.numKeep as real)
    case Seed => Number(o.seed as real)
    case NumPredict => Number(o.numPredict as real)
    case TopK => Number(o.topK as real)
    case TopP => Number(o.topP)
    case TfsZ => Number(o.tfsZ)
    case TypicalP => Number(o.typicalP)
    case RepeatLastN => Number(o.repeatLastN as real)
    case Temperature => Number(o.temperature)
    case RepeatPenalty => Number(o.repeatPenalty)
    case PresencePenalty => Number(o.presencePenalty)
    case FrequencyPenalty => Number(o.frequencyPenalty)
    case Mirostat => Number(o.mirostat as real)
    case MirostatTau => Number(o.mirostatTau)
    case MirostatEta => Number(o.mirostatEta)
    case PenalizeNewline => Bool(o.penalizeNewline)
    case Stop => Array(seq(|o.stop|, i requires 0 <= i < |o.stop| => Str(o.stop[i])))
  }

  /** The JSON value json.Marshal writes for a key of the `options` object. */
  function Get(o: Options, f: Field): Value
  {
    match f
    case OfRunner(r) => RunnerGet(o.runner, r)
    case OfOptions(p) => OptionGet(o, p)
  }

  /** encoding/json's `omitempty` test: false, 0, "", an empty (or nil)
      slice and nil are empty; an object is never empty. */
  predicate IsEmptyValue(v: Value)
  {
    match v
    case Null => true
    case Bool(b) => !b
    case Number(n) => n == 0.0
    case Str(s) => s == ""
    case Array(items) => items == []
    case Object(_) => false
  }

  /** The fields whose default is false, 0 or an empty list. */
  const OmittedByDefault: set<Field> := {
    OfRunner(UseNuma),
    OfRunner(MainGpu),
    OfRunner(LowVram),
    OfRunner(LogitsAll),
    OfRunner(VocabOnly),
    OfRunner(UseMLock),
    OfOptions(NumKeep),
    OfOptions(PresencePenalty),
    OfOptions(FrequencyPenalty),
    OfOptions(Mirostat),
    OfOptions(Stop)}

  /** The documented default configuration (AIMY.go:88-125). */
  function DefaultOptions(): Options
  {
    Options(
      runner := Runner(
        useNuma := false,
        numCtx := 4096,
        numBatch := 512,
        numGqa := 1,
        numGpu := -1,
        mainGpu := 0,
        lowVram := false,
        f16Kv := true,
        logitsAll := false,
        vocabOnly := false,
        useMMap := true,
        useMLock := false,
        embeddingOnly := true,
        ropeFrequencyBase := 10000.0,
        ropeFrequencyScale := 1.0,
        numThread := 15),
      numKeep := 0,
      seed := -1,
      numPredict := -1,
      topK := 40,
      topP := 0.9,
      tfsZ := 1.0,
      typicalP := 1.0,
      repeatLastN := 64,
      temperature := 1.0,
      repeatPenalty := 1.1,
      presencePenalty := 0.0,
      frequencyPenalty := 0.0,
      mirostat := 0,
      mirostatTau := 5.0,
      mirostatEta := 0.1,
      penalizeNewline := true,
      stop := [])
  }

  /** The position of a field in Fields. */
  function Index(f: Field): nat
  {
    match f
    case OfRunner(r) =>
      match r {
        case UseNuma => 0
        case NumCtx => 1
        case NumBatch => 2
        case NumGqa => 3
        case NumGpu => 4
        case MainGpu => 5
        case LowVram => 6
        case F16Kv => 7
        case LogitsAll => 8
        case VocabOnly => 9
        case UseMMap => 10
        case UseMLock => 11
        case EmbeddingOnly => 12
        case RopeFrequencyBase => 13
        case RopeFrequencyScale => 14
        case NumThread => 15
      }
    case OfOptions(p) =>
      match p {
        case NumKeep => 16
        case Seed => 17
        case NumPredict => 18
        case TopK => 19
        case TopP => 20
        case TfsZ => 21
        case TypicalP => 22
        case RepeatLastN => 23
        case Temperature => 24
        case RepeatPenalty => 25
        case PresencePenalty => 26
        case FrequencyPenalty => 27
        case Mirostat => 28
        case MirostatTau => 29
        case MirostatEta => 30
        case PenalizeNewline => 31
        case Stop => 32
      }
  }

  /** The members json.Marshal writes for the fields `fs`, in order,
      leaving out every field whose value is empty. */
  function EncodeFields(o: Options, fs: seq<Field>): (ms: seq<Member>)
    ensures |ms| <= |fs|
    ensures forall m :: m in ms ==> !IsEmptyValue(m.value)
    ensures forall m :: m in ms ==> exists f :: f in fs && m == Member(Tag(f), Get(o, f))
    ensures forall f :: f in fs && !IsEmptyValue(Get(o, f)) ==> Member(Tag(f), Get(o, f)) in ms
  {
    if fs == [] then []
    else
      var head := if IsEmptyValue(Get(o, fs[0])) then [] else [Member(Tag(fs[0]), Get(o, fs[0]))];
      head + EncodeFields(o, fs[1..])
  }

  /** The `options` object of the request body. */
  function Encode(o: Options): seq<Member>
  {
    EncodeFields(o, Fields)
  }

  /** The request body: `model`, `prompt` and `system` carry no `omitempty`
      and are always written, empty or not; `options` is a nested object. */
  function EncodeData(d: Data): (ms: seq<Member>)
    ensures Keys(ms) == ["model", "prompt", "system", "options"]
  {
    [ Member("model", Str(d.model)),
      Member("prompt", Str(d.prompt)),
      Member("system", Str(d.system)),
      Member("options", Object(Encode(d.options))) ]
  }

  /** Reading a Runner field's JSON name back gives the field. */
  lemma RunnerTagRoundTrip(f: RunnerField)
    ensures RunnerFieldOfTag(RunnerTag(f)) == Some(f)
  {
    match f
    case UseNuma =>
    case NumCtx =>
    case NumBatch =>
    case NumGqa =>
    case NumGpu =>
    case MainGpu =>
    case LowVram =>
    case F16Kv =>
    case LogitsAll =>
    case VocabOnly =>
    case UseMMap =>
    case UseMLock =>
    case EmbeddingOnly =>
    case RopeFrequencyBase =>
    case RopeFrequencyScale =>
    case NumThread =>
  }

  /** Reading an Options field's JSON name back gives the field. */
  lemma OptionTagRoundTrip(f: OptionField)
    ensures OptionFieldOfTag(OptionTag(f)) == Some(f)
  {
    match f
    case NumKeep =>
    case Seed =>
    case NumPredict =>
    case TopK =>
    case TopP =>
    case TfsZ =>
    case TypicalP =>
    case RepeatLastN =>
    case Temperature =>
    case RepeatPenalty =>
    case PresencePenalty =>
    case FrequencyPenalty =>
    case Mirostat =>
    case MirostatTau =>
    case MirostatEta =>
    case PenalizeNewline =>
    case Stop =>
  }

  /** Flattening is collision-free: no field Options declares itself uses the
      JSON name of a promoted Runner field (which it would otherwise shadow). */
  lemma OptionTagNotRunnerTag(f: OptionField)
    ensures RunnerFieldOfTag(OptionTag(f)) == None
  {
    match f
    case NumKeep =>
    case Seed =>
    case NumPredict =>
    case TopK =>
    case TopP =>
    case TfsZ =>
    case TypicalP =>
    case RepeatLastN =>
    case Temperature =>
    case RepeatPenalty =>
    case PresencePenalty =>
    case FrequencyPenalty =>
    case Mirostat =>
    case MirostatTau =>
    case MirostatEta =>
    case PenalizeNewline =>
    case Stop =>
  }

  /** No two keys of the `options` object share a JSON name. */
  lemma TagInjective(f: Field, g: Field)
    ensures Tag(f) == Tag(g) ==> f == g
  {
    match f
    case OfRunner(r) =>
      RunnerTagRoundTrip(r);
      match g {
        case OfRunner(r') => RunnerTagRoundTrip(r');
        case OfOptions(p') => OptionTagNotRunnerTag(p');
      }
    case OfOptions(p) =>
      OptionTagRoundTrip(p);
      match g {
        case OfRunner(r') => RunnerTagRoundTrip(r'); OptionTagNotRunnerTag(p);
        case OfOptions(p') => OptionTagRoundTrip(p');
      }
  }

  /** Fields lists each field once: position i holds the field whose Index is i. */
  lemma FieldsDistinct()
    ensures forall i, j :: 0 <= i < j < |Fields| ==> Fields[i] != Fields[j]
  {
    forall i | 0 <= i < 16
      ensures Index(Fields[i]) == i
    {
    }
    forall i | 16 <= i < |Fields|
      ensures Index(Fields[i]) == i
    {
    }
  }

  /** A key appears in the `options` object exactly when its field is not
      empty, and then with that field's value. */
  lemma EncodeKeyPresence(o: Options, f: Field)
    ensures Member(Tag(f), Get(o, f)) in Encode(o) <==> !IsEmptyValue(Get(o, f))
    ensures forall v :: Member(Tag(f), v) in Encode(o) ==> v == Get(o, f)
  {
    FieldsComplete(f);
    forall v | Member(Tag(f), v) in Encode(o)
      ensures v == Get(o, f)
    {
      var g :| g in Fields && Member(Tag(f), v) == Member(Tag(g), Get(o, g));
      TagInjective(f, g);
    }
  }

  /** Keys written for distinct fields are distinct. */
  lemma {:induction false} EncodeFieldsKeysDistinct(o: Options, fs: seq<Field>)
    requires forall i, j :: 0 <= i < j < |fs| ==> fs[i] != fs[j]
    ensures forall i, j :: 0 <= i < j < |EncodeFields(o, fs)| ==>
      EncodeFields(o, fs)[i].key != EncodeFields(o, fs)[j].key
  {
    if fs != [] {
      var rest := EncodeFields(o, fs[1..]);
      EncodeFieldsKeysDistinct(o, fs[1..]);
      forall m | m in rest
        ensures m.key != Tag(fs[0])
      {
        var g :| g in fs[1..] && m == Member(Tag(g), Get(o, g));
        TagInjective(fs[0], g);
      }
    }
  }

  /** The `options` object never writes a key twice. */
  lemma EncodeKeysDistinct(o: Options)
    ensures forall i, j :: 0 <= i < j < |Encode(o)| ==> Encode(o)[i].key != Encode(o)[j].key
  {
    FieldsDistinct();
    EncodeFieldsKeysDistinct(o, Fields);
  }

  /** The fields of the default configuration that `omitempty` drops. */
  lemma DefaultEmptyFields(f: Field)
    ensures IsEmptyValue(Get(DefaultOptions(), f)) <==> f in OmittedByDefault
  {
    match f
    case OfRunner(r) =>
      match r {
        case UseNuma =>
        case NumCtx =>
        case NumBatch =>
        case NumGqa =>
        case NumGpu =>
        case MainGpu =>
        case LowVram =>
        case F16Kv =>
        case LogitsAll =>
        case VocabOnly =>
        case UseMMap =>
        case UseMLock =>
        case EmbeddingOnly =>
        case RopeFrequencyBase =>
        case RopeFrequencyScale =>
        case NumThread =>
      }
    case OfOptions(p) =>
      match p {
        case NumKeep =>
        case Seed =>
        case NumPredict =>
        case TopK =>
        case TopP =>
        case TfsZ =>
        case TypicalP =>
        case RepeatLastN =>
        case Temperature =>
        case RepeatPenalty =>
        case PresencePenalty =>
        case FrequencyPenalty =>
        case Mirostat =>
        case MirostatTau =>
        case MirostatEta =>
        case PenalizeNewline =>
        case Stop =>
      }
  }

  /** With the default configuration, exactly the eleven fields whose default
      is false, 0 or empty are missing from the `options` object. */
  lemma DefaultOptionsKeys(f: Field)
    ensures (exists v :: Member(Tag(f), v) in Encode(DefaultOptions())) <==> f !in OmittedByDefault
  {
    EncodeKeyPresence(DefaultOptions(), f);
    DefaultEmptyFields(f);
  }

  /** Every field is serialized: Fields lists each one. */
  lemma FieldsComplete(f: Field)
    ensures f in Fields
  {
    match f
    case OfRunner(r) =>
      match r {
        case UseNuma => assert Fields[0] == OfRunner(UseNuma);
        case NumCtx => assert Fields[1] == OfRunner(NumCtx);
        case NumBatch => assert Fields[2] == OfRunner(NumBatch);
        case NumGqa => assert Fields[3] == OfRunner(NumGqa);
        case NumGpu => assert Fields[4] == OfRunner(NumGpu);
        case MainGpu => assert Fields[5] == OfRunner(MainGpu);
        case LowVram => assert Fields[6] == OfRunner(LowVram);
        case F16Kv => assert Fields[7] == OfRunner(F16Kv);
        case LogitsAll => assert Fields[8] == OfRunner(LogitsAll);
        case VocabOnly => assert Fields[9] == OfRunner(VocabOnly);
        case UseMMap => assert Fields[10] == OfRunner(UseMMap);
        case UseMLock => assert Fields[11] == OfRunner(UseMLock);
        case EmbeddingOnly => assert Fields[12] == OfRunner(EmbeddingOnly);
        case RopeFrequencyBase => assert Fields[13] == OfRunner(RopeFrequencyBase);
        case RopeFrequencyScale => assert Fields[14] == OfRunner(RopeFrequencyScale);
        case NumThread => assert Fields[15] == OfRunner(NumThread);
      }
    case OfOptions(p) =>
      match p {
        case NumKeep => assert Fields[16] == OfOptions(NumKeep);
        case Seed => assert Fields[17] == OfOptions(Seed);
        case NumPredict => assert Fields[18] == OfOptions(NumPredict);
        case TopK => assert Fields[19] == OfOptions(TopK);
        case TopP => assert Fields[20] == OfOptions(TopP);
        case TfsZ => assert Fields[21] == OfOptions(TfsZ);
        case TypicalP => assert Fields[22] == OfOptions(TypicalP);
        case RepeatLastN => assert Fields[23] == OfOptions(RepeatLastN);
        case Temperature => assert Fields[24] == OfOptions(Temperature);
        case RepeatPenalty => assert Fields[25] == OfOptions(RepeatPenalty);
        case PresencePenalty => assert Fields[26] == OfOptions(PresencePenalty);
        case FrequencyPenalty => assert Fields[27] == OfOptions(FrequencyPenalty);
        case Mirostat => assert Fields[28] == OfOptions(Mirostat);
        case MirostatTau => assert Fields[29] == OfOptions(MirostatTau);
        case MirostatEta => assert Fields[30] == OfOptions(MirostatEta);
        case PenalizeNewline => assert Fields[31] == OfOptions(PenalizeNewline);
        case Stop => assert Fields[32] == OfOptions(Stop);
      }
  }
}
