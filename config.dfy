/** Application configuration (`audio_access/config.py`): the settings record,
    its validation and the keyword overrides of `get_config`. */
module Configuration {
  import opened Wrappers
  import Seqs

  /** The settings. Every field's default is read from the environment when
      the program loads; here the defaults are a parameter (`Defaults`). */
  datatype Config = Config(
    elevenApiKey: string,
    chunkMs: int,
    hopMs: int,
    useVad: bool,
    vadAggressiveness: int,
    elevenlabsChunkDuration: int,
    useVoiceIsolation: bool,
    numSpeakers: int,
    sampleRate: int,
    channels: int,
    targetLanguage: string,
    autoTranslate: bool,
    translationEmail: string)

  /** The values the settings take when no environment variable is set. */
  function Defaults(apiKey: string): (c: Config)
    ensures c.sampleRate == 16000 && c.channels == 1
    ensures c.chunkMs == 320 && c.hopMs == 160 && c.vadAggressiveness == 2
    ensures c.elevenlabsChunkDuration == 5 && c.numSpeakers == 2
  {
    Config(apiKey, 320, 160, true, 2, 5, true, 2, 16000, 1, "en", false, "")
  }

  predicate ValidVad(level: int) {
    0 <= level <= 3
  }

  /** The error `__post_init__` raises without a key. */
  const MissingKey: string := "ELEVEN_API_KEY is required. Set it in your .env file"

  /** `__post_init__`: an empty API key is an error (the source raises
      ValueError); an aggressiveness outside 0..3 falls back to 2. */
  function PostInit(c: Config): (r: Result<Config, string>)
    ensures r.Err? <==> c.elevenApiKey == []
    ensures r.Err? ==> r.error == MissingKey
    ensures r.Ok? ==> ValidVad(r.value.vadAggressiveness)
    ensures r.Ok? && ValidVad(c.vadAggressiveness) ==> r.value == c
    ensures r.Ok? ==> r.value.(vadAggressiveness := c.vadAggressiveness) == c
  {
    if c.elevenApiKey == [] then Err(MissingKey)
    else if c.vadAggressiveness in [0, 1, 2, 3] then Ok(c)
    else Ok(c.(vadAggressiveness := 2))
  }

  // ---------------------------------------------------------------- overrides

  /** A keyword argument's value. */
  datatype Value = IntV(i: int) | StrV(s: string) | BoolV(b: bool)

  datatype Override = Override(key: string, value: Value)

  /** The data attributes of a settings record. */
  datatype Field =
    | ElevenApiKey | ChunkMs | HopMs | UseVad | VadAggressiveness
    | ElevenlabsChunkDuration | UseVoiceIsolation | NumSpeakers
    | SampleRate | Channels | TargetLanguage | AutoTranslate | TranslationEmail

  /** The field an attribute name denotes: `hasattr` for data attributes. */
  function FieldOf(key: string): Option<Field> {
    match key
    case "eleven_api_key" => Some(ElevenApiKey)
    case "chunk_ms" => Some(ChunkMs)
    case "hop_ms" => Some(HopMs)
    case "use_vad" => Some(UseVad)
    case "vad_aggressiveness" => Some(VadAggressiveness)
    case "elevenlabs_chunk_duration" => Some(ElevenlabsChunkDuration)
    case "use_voice_isolation" => Some(UseVoiceIsolation)
    case "num_speakers" => Some(NumSpeakers)
    case "sample_rate" => Some(SampleRate)
    case "channels" => Some(Channels)
    case "target_language" => Some(TargetLanguage)
    case "auto_translate" => Some(AutoTranslate)
    case "translation_email" => Some(TranslationEmail)
    case _ => None
  }

  /** The attribute name of a field. */
  function NameOf(f: Field): string {
    match f
    case ElevenApiKey => "eleven_api_key"
    case ChunkMs => "chunk_ms"
    case HopMs => "hop_ms"
    case UseVad => "use_vad"
    case VadAggressiveness => "vad_aggressiveness"
    case ElevenlabsChunkDuration => "elevenlabs_chunk_duration"
    case UseVoiceIsolation => "use_voice_isolation"
    case NumSpeakers => "num_speakers"
    case SampleRate => "sample_rate"
    case Channels => "channels"
    case TargetLanguage => "target_language"
    case AutoTranslate => "auto_translate"
    case TranslationEmail => "translation_email"
  }

  /** A name that denotes a field is that field's name. */
  lemma NameOfFieldOf(a: string)
    requires FieldOf(a).Some?
    ensures NameOf(FieldOf(a).value) == a
  {
  }

  predicate IsField(key: string) {
    FieldOf(key).Some?
  }

  /** The value a field holds. */
  function GetField(c: Config, f: Field): Value {
    match f
    case ElevenApiKey => StrV(c.elevenApiKey)
    case ChunkMs => IntV(c.chunkMs)
    case HopMs => IntV(c.hopMs)
    case UseVad => BoolV(c.useVad)
    case VadAggressiveness => IntV(c.vadAggressiveness)
    case ElevenlabsChunkDuration => IntV(c.elevenlabsChunkDuration)
    case UseVoiceIsolation => BoolV(c.useVoiceIsolation)
    case NumSpeakers => IntV(c.numSpeakers)
    case SampleRate => IntV(c.sampleRate)
    case Channels => IntV(c.channels)
    case TargetLanguage => StrV(c.targetLanguage)
    case AutoTranslate => BoolV(c.autoTranslate)
    case TranslationEmail => StrV(c.translationEmail)
  }

  /** `getattr(config, key)` for a data attribute, `None` for any other name. */
  function Get(c: Config, key: string): (r: Option<Value>)
    ensures r.Some? <==> IsField(key)
  {
    if IsField(key) then Some(GetField(c, FieldOf(key).value)) else None
  }

  /** A value of the field's declared type. */
  predicate Fits(f: Field, v: Value) {
    match f
    case ElevenApiKey => v.StrV?
    case TargetLanguage => v.StrV?
    case TranslationEmail => v.StrV?
    case UseVad => v.BoolV?
    case UseVoiceIsolation => v.BoolV?
    case AutoTranslate => v.BoolV?
    case _ => v.IntV?
  }

  function SetField(c: Config, f: Field, v: Value): Config
    requires Fits(f, v)
  {
    match f
    case ElevenApiKey => c.(elevenApiKey := v.s)
    case ChunkMs => c.(chunkMs := v.i)
    case HopMs => c.(hopMs := v.i)
    case UseVad => c.(useVad := v.b)
    case VadAggressiveness => c.(vadAggressiveness := v.i)
    case ElevenlabsChunkDuration => c.(elevenlabsChunkDuration := v.i)
    case UseVoiceIsolation => c.(useVoiceIsolation := v.b)
    case NumSpeakers => c.(numSpeakers := v.i)
    case SampleRate => c.(sampleRate := v.i)
    case Channels => c.(channels := v.i)
    case TargetLanguage => c.(targetLanguage := v.s)
    case AutoTranslate => c.(autoTranslate := v.b)
    case TranslationEmail => c.(translationEmail := v.s)
  }

  /** Setting one field changes that field and no other. */
  lemma GetSetField(c: Config, f: Field, v: Value, g: Field)
    requires Fits(f, v)
    ensures GetField(SetField(c, f, v), g) == if g == f then v else GetField(c, g)
  {
    match f
    case ElevenApiKey =>
    case ChunkMs =>
    case HopMs =>
    case UseVad =>
    case VadAggressiveness =>
    case ElevenlabsChunkDuration =>
    case UseVoiceIsolation =>
    case NumSpeakers =>
    case SampleRate =>
    case Channels =>
    case TargetLanguage =>
    case AutoTranslate =>
    case TranslationEmail =>
  }

  /** An override of a field carries a value of the field's declared type. */
  predicate WellTyped(o: Override) {
    IsField(o.key) ==> Fits(FieldOf(o.key).value, o.value)
  }

  /** `setattr(config, key, value)` guarded by `hasattr`: a field takes the
      value, any other name leaves the record as it is. */
  function SetAttr(c: Config, o: Override): Config
    requires WellTyped(o)
  {
    if IsField(o.key) then SetField(c, FieldOf(o.key).value, o.value) else c
  }

  /** Setting one attribute changes that attribute and no other. */
  lemma GetSetAttr(c: Config, o: Override, key: string)
    requires WellTyped(o)
    ensures Get(SetAttr(c, o), key) == if IsField(o.key) && key == o.key then Some(o.value) else Get(c, key)
  {
    if IsField(o.key) && IsField(key) {
      GetSetField(c, FieldOf(o.key).value, o.value, FieldOf(key).value);
      if FieldOf(o.key) == FieldOf(key) {
        FieldOfInjective(o.key, key);
      }
    }
  }

  /** Different names denote different fields. */
  lemma FieldOfInjective(a: string, b: string)
    requires FieldOf(a).Some? && FieldOf(a) == FieldOf(b)
    ensures a == b
  {
    NameOfFieldOf(a);
    NameOfFieldOf(b);
  }

  predicate AllWellTyped(os: seq<Override>) {
    forall i :: 0 <= i < |os| ==> WellTyped(os[i])
  }

  /** The overrides applied in order. */
  function Apply(c: Config, os: seq<Override>): Config
    requires AllWellTyped(os)
  {
    if os == [] then c else SetAttr(Apply(c, os[..|os| - 1]), os[|os| - 1])
  }

  /** The value of the last override that names `key`, if any. */
  function LastFor(os: seq<Override>, key: string): Option<Value> {
    if os == [] then None
    else if os[|os| - 1].key == key then Some(os[|os| - 1].value)
    else LastFor(os[..|os| - 1], key)
  }

  /** After the overrides, each field holds the last value given for it, or
      its previous value when none was given; names that are not fields
      leave no trace. */
  lemma {:induction false} ApplyGet(c: Config, os: seq<Override>, key: string)
    requires AllWellTyped(os)
    ensures IsField(key) ==> Get(Apply(c, os), key) == Some(LastFor(os, key).GetOr(Get(c, key).value))
    ensures !IsField(key) ==> Get(Apply(c, os), key) == None
  {
    if os != [] {
      var init := os[..|os| - 1];
      assert AllWellTyped(init);
      ApplyGet(c, init, key);
      GetSetAttr(Apply(c, init), os[|os| - 1], key);
    }
  }

  /** Overrides that name no field leave the record unchanged. */
  lemma {:induction false} ApplyUnknownOnly(c: Config, os: seq<Override>)
    requires forall i :: 0 <= i < |os| ==> !IsField(os[i].key)
    ensures AllWellTyped(os) && Apply(c, os) == c
  {
    if os != [] {
      ApplyUnknownOnly(c, os[..|os| - 1]);
    }
  }

  /** `get_config(**overrides)`: build and validate the settings from their
      defaults, then apply each override whose name is a field. */
  method GetConfig(defaults: Config, overrides: seq<Override>) returns (r: Result<Config, string>)
    requires AllWellTyped(overrides)
    ensures r.Err? <==> defaults.elevenApiKey == []
    ensures r.Ok? ==> r.value == Apply(PostInit(defaults).value, overrides)
  {
    var validated := PostInit(defaults);
    if validated.Err? {
      return validated;
    }
    var config := validated.value;
    for i := 0 to |overrides|
      invariant config == Apply(validated.value, overrides[..i])
    {
      Seqs.PrefixOfPrefix(overrides, i);
      config := SetAttr(config, overrides[i]);
    }
    assert overrides[..|overrides|] == overrides;
    return Ok(config);
  }

  /** Overrides bypass validation: an out-of-range aggressiveness given as an
      override is kept. */
  lemma OverrideNotRevalidated()
    ensures var os := [Override("vad_aggressiveness", IntV(7))];
      AllWellTyped(os) && Apply(PostInit(Defaults("key")).value, os).vadAggressiveness == 7
  {
    var os := [Override("vad_aggressiveness", IntV(7))];
    assert os[..0] == [];
  }
}
