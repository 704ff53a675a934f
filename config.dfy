/**
 * The configuration records of `sales_coach/src/models/config.py`: four sections with their
 * defaults, the field validators that run when a section is built from data, and
 * `load_config`, which layers defaults, an optional file and five environment overrides.
 *
 * Reading and parsing the file (`from_file`) and Python's `float()` are parameters; the
 * environment is a map from variable names to values.
 */
module Config {
  import opened Common

  datatype AudioConfig = AudioConfig(
    sampleRate: int,
    chunkDuration: real,
    inputDevice: Option<string>,
    vadThreshold: real,
    vadModel: string,
    maxBufferSize: int,
    bufferCleanupInterval: real)

  datatype ModelConfig = ModelConfig(
    whisperModel: string,
    whisperDevice: string,
    llmModelPath: Option<string>,
    llmModelName: string,
    llmContextLength: int,
    llmMaxTokens: int,
    llmTemperature: real,
    diarizationModel: string,
    minSpeakers: int,
    maxSpeakers: int)

  datatype CoachingConfig = CoachingConfig(
    coachingInterval: real,
    minTranscriptLength: int,
    priorityThreshold: real,
    maxSimultaneousAdvice: int,
    conversationContextWindow: int,
    enableConversationMemory: bool,
    enabledCategories: seq<string>)

  datatype SystemConfig = SystemConfig(
    maxMemoryPercent: real,
    maxCpuPercent: real,
    modelsCacheDir: string,
    logsDir: string,
    configDir: string,
    logLevel: string,
    logToFile: bool,
    logRotation: bool,
    storeTranscripts: bool,
    storeAudio: bool,
    anonymizeLogs: bool)

  datatype SalesCoachConfig = SalesCoachConfig(
    audio: AudioConfig, models: ModelConfig, coaching: CoachingConfig, system: SystemConfig)

  const DefaultAudio := AudioConfig(16000, 5.0, None, 0.02, "silero", 100, 60.0)
  const DefaultModels := ModelConfig("tiny", "auto", None, "llama-3.2-3b", 2048, 200, 0.3, "pyannote", 2, 4)
  const DefaultCategories: seq<string> :=
    ["QUESTIONING", "LISTENING", "OBJECTION_HANDLING", "VALUE_PROPOSITION", "CLOSING", "RAPPORT_BUILDING"]
  const DefaultCoaching := CoachingConfig(30.0, 3, 0.7, 2, 10, true, DefaultCategories)
  const DefaultSystem := SystemConfig(50.0, 60.0, "models_cache", "logs", "config", "INFO", true, true, false, false, true)
  const Defaults := SalesCoachConfig(DefaultAudio, DefaultModels, DefaultCoaching, DefaultSystem)

  const SampleRates: seq<int> := [8000, 16000, 22050, 44100, 48000]
  const WhisperModels: seq<string> := ["tiny", "base", "small", "medium", "large"]
  const LogLevels: seq<string> := ["DEBUG", "INFO", "WARNING", "ERROR", "CRITICAL"]

  // ----- Case conversion for `log_level` -----

  function UpperChar(c: char): char
  {
    if 'a' <= c <= 'z' then (c as int - 32) as char else c
  }

  /** `s.upper()`, character by character. */
  function Upper(s: string): (r: string)
    ensures |r| == |s| && forall k :: 0 <= k < |s| ==> r[k] == UpperChar(s[k])
  {
    seq(|s|, k requires 0 <= k < |s| => UpperChar(s[k]))
  }

  /** An upper-cased string has no lower-case letter left, so upper-casing it again changes nothing. */
  lemma UpperIdempotent(s: string)
    ensures Upper(Upper(s)) == Upper(s)
    ensures forall k :: 0 <= k < |s| ==> !('a' <= Upper(s)[k] <= 'z')
  {
    assert Upper(Upper(s)) == Upper(s);
  }

  // ----- Field validators -----

  /** `validate_sample_rate`. */
  function ValidateSampleRate(v: int): (r: Result<int>)
    ensures r.Ok? <==> v == 8000 || v == 16000 || v == 22050 || v == 44100 || v == 48000
    ensures r.Ok? ==> r.value == v
  {
    if v !in SampleRates then Raised("Sample rate must be one of: 8000, 16000, 22050, 44100, 48000")
    else Ok(v)
  }

  /** `validate_chunk_duration`. */
  function ValidateChunkDuration(v: real): (r: Result<real>)
    ensures r.Ok? <==> 0.0 < v <= 30.0
    ensures r.Ok? ==> r.value == v
  {
    if v <= 0.0 || v > 30.0 then Raised("Chunk duration must be between 0 and 30 seconds") else Ok(v)
  }

  /** `validate_whisper_model`. */
  function ValidateWhisperModel(v: string): (r: Result<string>)
    ensures r.Ok? <==> v in WhisperModels
    ensures r.Ok? ==> r.value == v
  {
    if v !in WhisperModels then Raised("Whisper model must be one of the known sizes") else Ok(v)
  }

  /** `validate_temperature`. */
  function ValidateTemperature(v: real): (r: Result<real>)
    ensures r.Ok? <==> 0.0 <= v <= 2.0
    ensures r.Ok? ==> r.value == v
  {
    if v < 0.0 || v > 2.0 then Raised("Temperature must be between 0 and 2") else Ok(v)
  }

  /** `validate_coaching_interval`. */
  function ValidateCoachingInterval(v: real): (r: Result<real>)
    ensures r.Ok? <==> 5.0 <= v <= 300.0
    ensures r.Ok? ==> r.value == v
  {
    if v < 5.0 || v > 300.0 then Raised("Coaching interval must be between 5 and 300 seconds") else Ok(v)
  }

  /** `validate_percentages`, shared by the memory and CPU limits. */
  function ValidatePercentage(v: real): (r: Result<real>)
    ensures r.Ok? <==> 0.0 < v <= 100.0
    ensures r.Ok? ==> r.value == v
  {
    if v <= 0.0 || v > 100.0 then Raised("Percentage must be between 0 and 100") else Ok(v)
  }

  /** `validate_log_level`: the level is looked up upper-cased and stored upper-cased. */
  function ValidateLogLevel(v: string): (r: Result<string>)
    ensures r.Ok? <==> Upper(v) in LogLevels
    ensures r.Ok? ==> r.value == Upper(v) && r.value in LogLevels
  {
    if Upper(v) !in LogLevels then Raised("Log level must be one of the standard levels") else Ok(Upper(v))
  }

  /** Spelling does not matter to the log-level check, and an accepted level is accepted again unchanged. */
  lemma LogLevelNormalises(v: string, w: string)
    requires Upper(v) == Upper(w)
    ensures ValidateLogLevel(v) == ValidateLogLevel(w)
    ensures ValidateLogLevel(v).Ok? ==> ValidateLogLevel(ValidateLogLevel(v).value) == ValidateLogLevel(v)
  {
    UpperIdempotent(v);
  }

  // ----- Building a whole configuration from data -----

  /** What the validators accept, field by field. */
  predicate Accepted(c: SalesCoachConfig)
  {
    c.audio.sampleRate in SampleRates && 0.0 < c.audio.chunkDuration <= 30.0
    && c.models.whisperModel in WhisperModels && 0.0 <= c.models.llmTemperature <= 2.0
    && 5.0 <= c.coaching.coachingInterval <= 300.0
    && 0.0 < c.system.maxMemoryPercent <= 100.0 && 0.0 < c.system.maxCpuPercent <= 100.0
    && Upper(c.system.logLevel) in LogLevels
  }

  /** An accepted configuration whose log level is already in its stored, upper-case form. */
  predicate Normal(c: SalesCoachConfig)
  {
    Accepted(c) && c.system.logLevel in LogLevels
  }

  /** `AudioConfig(...)` from data: its two validators run, and the values are kept as given. */
  function ValidateAudio(a: AudioConfig): (r: Result<AudioConfig>)
    ensures r.Ok? <==> a.sampleRate in SampleRates && 0.0 < a.chunkDuration <= 30.0
    ensures r.Ok? ==> r.value == a
  {
    var rate := ValidateSampleRate(a.sampleRate);
    var chunk := ValidateChunkDuration(a.chunkDuration);
    if rate.Raised? then Raised(rate.error)
    else if chunk.Raised? then Raised(chunk.error)
    else Ok(a)
  }

  /** `ModelConfig(...)` from data. */
  function ValidateModels(m: ModelConfig): (r: Result<ModelConfig>)
    ensures r.Ok? <==> m.whisperModel in WhisperModels && 0.0 <= m.llmTemperature <= 2.0
    ensures r.Ok? ==> r.value == m
  {
    var whisper := ValidateWhisperModel(m.whisperModel);
    var temperature := ValidateTemperature(m.llmTemperature);
    if whisper.Raised? then Raised(whisper.error)
    else if temperature.Raised? then Raised(temperature.error)
    else Ok(m)
  }

  /** `CoachingConfig(...)` from data. */
  function ValidateCoaching(c: CoachingConfig): (r: Result<CoachingConfig>)
    ensures r.Ok? <==> 5.0 <= c.coachingInterval <= 300.0
    ensures r.Ok? ==> r.value == c
  {
    var interval := ValidateCoachingInterval(c.coachingInterval);
    if interval.Raised? then Raised(interval.error) else Ok(c)
  }

  /** `SystemConfig(...)` from data: the stored log level is the upper-cased one. */
  function ValidateSystem(s: SystemConfig): (r: Result<SystemConfig>)
    ensures r.Ok? <==> 0.0 < s.maxMemoryPercent <= 100.0 && 0.0 < s.maxCpuPercent <= 100.0 && Upper(s.logLevel) in LogLevels
    ensures r.Ok? ==> r.value == s.(logLevel := Upper(s.logLevel)) && r.value.logLevel in LogLevels
  {
    var memory := ValidatePercentage(s.maxMemoryPercent);
    var cpu := ValidatePercentage(s.maxCpuPercent);
    var level := ValidateLogLevel(s.logLevel);
    if memory.Raised? then Raised(memory.error)
    else if cpu.Raised? then Raised(cpu.error)
    else if level.Raised? then Raised(level.error)
    else Ok(s.(logLevel := level.value))
  }

  /**
   * Constructing `SalesCoachConfig` from data: each section is built and validated in turn.
   * The result is the data with the log level upper-cased, or the first failing validator's error.
   */
  function ValidateConfig(c: SalesCoachConfig): (r: Result<SalesCoachConfig>)
    ensures r.Ok? <==> Accepted(c)
    ensures r.Ok? ==> Normal(r.value) && r.value == c.(system := c.system.(logLevel := Upper(c.system.logLevel)))
  {
    var audio := ValidateAudio(c.audio);
    var models := ValidateModels(c.models);
    var coaching := ValidateCoaching(c.coaching);
    var system := ValidateSystem(c.system);
    if audio.Raised? then Raised(audio.error)
    else if models.Raised? then Raised(models.error)
    else if coaching.Raised? then Raised(coaching.error)
    else if system.Raised? then Raised(system.error)
    else
      UpperIdempotent(c.system.logLevel);
      Ok(SalesCoachConfig(audio.value, models.value, coaching.value, system.value))
  }

  /** Validation is a projection: what it returns, it accepts again unchanged. */
  lemma ValidateIdempotent(c: SalesCoachConfig)
    requires ValidateConfig(c).Ok?
    ensures ValidateConfig(ValidateConfig(c).value) == ValidateConfig(c)
  {
    var v := ValidateConfig(c).value;
    UpperIdempotent(c.system.logLevel);
    assert v.system.logLevel == Upper(c.system.logLevel);
    assert v.(system := v.system.(logLevel := Upper(v.system.logLevel))) == v;
  }

  /** A normal configuration passes validation unchanged. */
  lemma NormalIsFixpoint(c: SalesCoachConfig)
    requires Normal(c)
    ensures ValidateConfig(c) == Ok(c)
  {
    var l := c.system.logLevel;
    assert l == "DEBUG" || l == "INFO" || l == "WARNING" || l == "ERROR" || l == "CRITICAL";
    UpperOfLevels(l);
    assert c.(system := c.system.(logLevel := Upper(l))) == c;
  }

  lemma UpperOfLevels(l: string)
    requires l in LogLevels
    ensures Upper(l) == l
  {
    assert forall k :: 0 <= k < |l| ==> 'A' <= l[k] <= 'Z' || l[k] == '_';
  }

  /** The built-in defaults satisfy every validator and are already normal. */
  lemma DefaultsNormal()
    ensures Normal(Defaults) && ValidateConfig(Defaults) == Ok(Defaults)
  {
    UpperOfLevels("INFO");
    NormalIsFixpoint(Defaults);
  }

  // ----- `load_config` -----

  /** The fields `load_config` lets the environment override. */
  datatype Target = WhisperModelField | LlmModelPathField | InputDeviceField | LogLevelField | CoachingIntervalField

  /** `env_overrides`, in the order the dictionary lists it. */
  const Overrides: seq<Target> := [WhisperModelField, LlmModelPathField, InputDeviceField, LogLevelField, CoachingIntervalField]

  function EnvVar(t: Target): string
  {
    match t
    case WhisperModelField => "SALES_COACH_WHISPER_MODEL"
    case LlmModelPathField => "SALES_COACH_LLM_MODEL_PATH"
    case InputDeviceField => "SALES_COACH_AUDIO_DEVICE"
    case LogLevelField => "SALES_COACH_LOG_LEVEL"
    case CoachingIntervalField => "SALES_COACH_COACHING_INTERVAL"
  }

  /** The value of one overridable field, whatever its type. */
  datatype FieldValue = Text(text: string) | OptionalText(optional: Option<string>) | Number(number: real)

  function FieldOf(c: SalesCoachConfig, t: Target): FieldValue
  {
    match t
    case WhisperModelField => Text(c.models.whisperModel)
    case LlmModelPathField => OptionalText(c.models.llmModelPath)
    case InputDeviceField => OptionalText(c.audio.inputDevice)
    case LogLevelField => Text(c.system.logLevel)
    case CoachingIntervalField => Number(c.coaching.coachingInterval)
  }

  /** The configuration with every overridable field blanked: what no override may touch. */
  function Rest(c: SalesCoachConfig): SalesCoachConfig
  {
    c.(models := c.models.(whisperModel := [], llmModelPath := None),
       audio := c.audio.(inputDevice := None),
       system := c.system.(logLevel := []),
       coaching := c.coaching.(coachingInterval := 0.0))
  }

  /**
   * The value an override stores: `float()` of the text for the coaching interval, the raw
   * text for every other field. `None` when `float()` raises.
   */
  function Converted(t: Target, raw: string, parseFloat: string -> Option<real>): (r: Option<FieldValue>)
    ensures r.None? <==> t == CoachingIntervalField && parseFloat(raw).None?
    ensures t != CoachingIntervalField ==> r == Some(if t == WhisperModelField || t == LogLevelField then Text(raw) else OptionalText(Some(raw)))
  {
    match t
    case CoachingIntervalField => if parseFloat(raw).None? then None else Some(Number(parseFloat(raw).value))
    case WhisperModelField => Some(Text(raw))
    case LogLevelField => Some(Text(raw))
    case LlmModelPathField => Some(OptionalText(Some(raw)))
    case InputDeviceField => Some(OptionalText(Some(raw)))
  }

  /** `setattr(getattr(config, section), key, value)` after the conversion; no validator runs. */
  function Assign(c: SalesCoachConfig, t: Target, raw: string, parseFloat: string -> Option<real>): (r: Result<SalesCoachConfig>)
    ensures r.Ok? <==> Converted(t, raw, parseFloat).Some?
    ensures r.Ok? ==> FieldOf(r.value, t) == Converted(t, raw, parseFloat).value
    ensures r.Ok? ==> Rest(r.value) == Rest(c) && forall u :: u != t ==> FieldOf(r.value, u) == FieldOf(c, u)
  {
    match t
    case WhisperModelField => Ok(c.(models := c.models.(whisperModel := raw)))
    case LlmModelPathField => Ok(c.(models := c.models.(llmModelPath := Some(raw))))
    case InputDeviceField => Ok(c.(audio := c.audio.(inputDevice := Some(raw))))
    case LogLevelField => Ok(c.(system := c.system.(logLevel := raw)))
    case CoachingIntervalField =>
      match parseFloat(raw)
      case None => Raised("could not convert string to float")
      case Some(v) => Ok(c.(coaching := c.coaching.(coachingInterval := v)))
  }

  /** The overrides for `targets`, applied in order; the first failing conversion ends the load. */
  function ApplyOverrides(c: SalesCoachConfig, targets: seq<Target>, env: map<string, string>,
                          parseFloat: string -> Option<real>): Result<SalesCoachConfig>
    decreases |targets|
  {
    if targets == [] then Ok(c)
    else if EnvVar(targets[0]) !in env then ApplyOverrides(c, targets[1..], env, parseFloat)
    else match Assign(c, targets[0], env[EnvVar(targets[0])], parseFloat)
      case Raised(e) => Raised(e)
      case Ok(next) => ApplyOverrides(next, targets[1..], env, parseFloat)
  }

  /** The layer under the overrides: the defaults, or the validated file contents when there is a file. */
  function Base(file: Option<Result<SalesCoachConfig>>): (r: Result<SalesCoachConfig>)
    ensures file.None? ==> r == Ok(Defaults)
    ensures file.Some? && file.value.Ok? ==> (r.Ok? <==> Accepted(file.value.value))
    ensures r.Ok? ==> Normal(r.value)
  {
    DefaultsNormal();
    match file
    case None => Ok(Defaults)
    case Some(Raised(e)) => Raised(e)
    case Some(Ok(data)) => ValidateConfig(data)
  }

  /**
   * `load_config`. `file` is `None` when no path is given or it does not exist, and otherwise
   * what `from_file` read (or the error it raised) before validation.
   */
  method LoadConfig(file: Option<Result<SalesCoachConfig>>, env: map<string, string>,
                    parseFloat: string -> Option<real>) returns (r: Result<SalesCoachConfig>)
    ensures Base(file).Raised? ==> r == Base(file)
    ensures Base(file).Ok? ==> r == ApplyOverrides(Base(file).value, Overrides, env, parseFloat)
  {
    var base := Base(file);
    if base.Raised? {
      return base;
    }
    var config := base.value;
    var i := 0;
    while i < |Overrides|
      invariant 0 <= i <= |Overrides|
      invariant ApplyOverrides(config, Overrides[i..], env, parseFloat) == ApplyOverrides(base.value, Overrides, env, parseFloat)
    {
      var t := Overrides[i];
      assert Overrides[i..][0] == t && Overrides[i..][1..] == Overrides[i + 1..];
      if EnvVar(t) in env {
        var next := Assign(config, t, env[EnvVar(t)], parseFloat);
        if next.Raised? {
          return next;
        }
        config := next.value;
      }
      i := i + 1;
    }
    return Ok(config);
  }

  predicate Distinct(targets: seq<Target>)
  {
    forall i, j :: 0 <= i < j < |targets| ==> targets[i] != targets[j]
  }

  /**
   * What the overrides do: loading fails exactly when a present variable's value cannot be
   * converted; otherwise each listed field whose variable is present holds the converted
   * value, every other field keeps its value, and nothing outside the listed fields changes.
   */
  lemma {:induction false} OverridesEffect(c: SalesCoachConfig, targets: seq<Target>, env: map<string, string>,
                                           parseFloat: string -> Option<real>)
    requires Distinct(targets)
    decreases |targets|
    ensures var r := ApplyOverrides(c, targets, env, parseFloat);
      (r.Raised? <==> exists t :: t in targets && EnvVar(t) in env && Converted(t, env[EnvVar(t)], parseFloat).None?)
      && (r.Ok? ==> Rest(r.value) == Rest(c))
      && (r.Ok? ==> forall t :: (FieldOf(r.value, t) ==
            if t in targets && EnvVar(t) in env then Converted(t, env[EnvVar(t)], parseFloat).value else FieldOf(c, t)))
  {
    if targets != [] {
      var t0, tail := targets[0], targets[1..];
      assert Distinct(tail);
      assert forall t :: t in targets <==> t == t0 || t in tail;
      assert t0 !in tail;
      if EnvVar(t0) !in env {
        OverridesEffect(c, tail, env, parseFloat);
      } else {
        var a := Assign(c, t0, env[EnvVar(t0)], parseFloat);
        if a.Ok? {
          OverridesEffect(a.value, tail, env, parseFloat);
        }
      }
    }
  }

  /** Without any of the five variables, loading returns the base layer unchanged. */
  lemma NoEnvKeepsBase(c: SalesCoachConfig, env: map<string, string>, parseFloat: string -> Option<real>)
    requires forall t :: t in Overrides ==> EnvVar(t) !in env
    ensures ApplyOverrides(c, Overrides, env, parseFloat) == Ok(c)
  {
    OverridesDistinct();
    OverridesEffect(c, Overrides, env, parseFloat);
    var r := ApplyOverrides(c, Overrides, env, parseFloat);
    RestAndFields(r.value, c);
  }

  lemma OverridesDistinct()
    ensures Distinct(Overrides)
  {
  }

  /** A configuration is its untouchable rest plus its five overridable fields. */
  lemma RestAndFields(a: SalesCoachConfig, b: SalesCoachConfig)
    requires Rest(a) == Rest(b) && forall t :: FieldOf(a, t) == FieldOf(b, t)
    ensures a == b
  {
    assert FieldOf(a, WhisperModelField) == FieldOf(b, WhisperModelField);
    assert FieldOf(a, LlmModelPathField) == FieldOf(b, LlmModelPathField);
    assert FieldOf(a, InputDeviceField) == FieldOf(b, InputDeviceField);
    assert FieldOf(a, LogLevelField) == FieldOf(b, LogLevelField);
    assert FieldOf(a, CoachingIntervalField) == FieldOf(b, CoachingIntervalField);
  }

  /** Only the coaching interval can make loading fail, and only when `float()` rejects its text. */
  lemma LoadFailsOnlyOnInterval(c: SalesCoachConfig, env: map<string, string>, parseFloat: string -> Option<real>)
    ensures ApplyOverrides(c, Overrides, env, parseFloat).Raised? <==>
      EnvVar(CoachingIntervalField) in env && parseFloat(env[EnvVar(CoachingIntervalField)]).None?
  {
    OverridesDistinct();
    OverridesEffect(c, Overrides, env, parseFloat);
    assert CoachingIntervalField in Overrides;
  }

  /**
   * Overrides are stored without validation: an interval below five seconds is kept, and a
   * log level is kept as written rather than upper-cased, so a loaded configuration need
   * not be one the validators would accept.
   */
  lemma OverridesSkipValidation(c: SalesCoachConfig, env: map<string, string>, parseFloat: string -> Option<real>)
    requires Normal(c)
    requires EnvVar(CoachingIntervalField) in env
    requires parseFloat(env[EnvVar(CoachingIntervalField)]).Some?
    requires parseFloat(env[EnvVar(CoachingIntervalField)]).value < 5.0
    ensures ApplyOverrides(c, Overrides, env, parseFloat).Ok?
    ensures !Accepted(ApplyOverrides(c, Overrides, env, parseFloat).value)
  {
    LoadFailsOnlyOnInterval(c, env, parseFloat);
    OverridesEffect(c, Overrides, env, parseFloat);
    var r := ApplyOverrides(c, Overrides, env, parseFloat).value;
    assert FieldOf(r, CoachingIntervalField) == Number(parseFloat(env[EnvVar(CoachingIntervalField)]).value);
  }

  /** A log level from the environment is stored exactly as written. */
  lemma LogLevelOverrideRaw(c: SalesCoachConfig, env: map<string, string>, parseFloat: string -> Option<real>)
    requires EnvVar(LogLevelField) in env
    requires ApplyOverrides(c, Overrides, env, parseFloat).Ok?
    ensures ApplyOverrides(c, Overrides, env, parseFloat).value.system.logLevel == env[EnvVar(LogLevelField)]
  {
    OverridesDistinct();
    OverridesEffect(c, Overrides, env, parseFloat);
    var r := ApplyOverrides(c, Overrides, env, parseFloat).value;
    assert FieldOf(r, LogLevelField) == Text(env[EnvVar(LogLevelField)]);
  }
}
