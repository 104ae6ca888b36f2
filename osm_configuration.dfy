// OSMWrangle's `Configuration`: the transformation settings read from a
// properties file. Reading the file is left to the caller, who passes its
// key/value pairs (or nothing, when the file could not be read).
module OsmConfiguration {
  import opened Wrappers
  import opened Text
  import Values
  import OsmAssistant

  const Int32Min: int := -0x8000_0000
  const Int32Max: int := 0x7fff_ffff

  /** The value of a 32-bit signed integer, or nothing when it overflows. */
  function InInt32(n: int): (r: Option<int>)
    ensures r.Some? <==> Int32Min <= n <= Int32Max
    ensures r.Some? ==> r.value == n
  {
    if Int32Min <= n <= Int32Max then Some(n) else None
  }

  /** `Integer.parseInt(s)`: an optional sign, then one or more decimal
    * digits, within the 32-bit range; anything else is a
    * `NumberFormatException` (None). */
  function ParseInt(s: string): (r: Option<int>)
    ensures r.Some? ==> Int32Min <= r.value <= Int32Max
    ensures r.Some? ==> |s| > 0
  {
    if |s| > 0 && (s[0] == '-' || s[0] == '+') then
      var digits := s[1..];
      if Values.IsDecimal(digits) then
        var magnitude: int := Values.DecimalValue(digits);
        InInt32(if s[0] == '-' then -magnitude else magnitude)
      else None
    else if Values.IsDecimal(s) then InInt32(Values.DecimalValue(s))
    else None
  }

  /** Parsing the decimal notation of a 32-bit integer gives it back. */
  lemma ParseIntToString(i: int)
    requires Int32Min <= i <= Int32Max
    ensures ParseInt(IntToString(i)) == Some(i)
  {
    if i < 0 {
      var m: nat := -i;
      var digits := NatToString(m);
      Values.DecimalValueOfNatToString(m);
      ParseIntNegative(digits);
      assert IntToString(i) == "-" + digits;
    } else {
      var digits := NatToString(i);
      Values.DecimalValueOfNatToString(i);
      ParseIntUnsigned(digits);
      assert IntToString(i) == digits;
    }
  }

  lemma ParseIntNegative(digits: string)
    requires Values.IsDecimal(digits)
    ensures ParseInt("-" + digits) == InInt32(0 - Values.DecimalValue(digits) as int)
  {
    var s := "-" + digits;
    assert s[0] == '-' && s[1..] == digits;
  }

  lemma ParseIntUnsigned(digits: string)
    requires Values.IsDecimal(digits)
    ensures ParseInt(digits) == InInt32(Values.DecimalValue(digits))
  {
    assert '0' <= digits[0] <= '9';
  }

  const DefaultBatchSize: int := 10

  /** A batch size outside [1, 1000] is replaced by the default. */
  function BatchSize(n: int): (b: int)
    ensures 1 <= b <= 1000
    ensures 1 <= n <= 1000 ==> b == n
    ensures !(1 <= n <= 1000) ==> b == DefaultBatchSize
  {
    if n < 1 || n > 1000 then DefaultBatchSize else n
  }

  /** The properties `initializeParameters` reads. */
  datatype Key = InputFilesKey | OutputDirKey | TmpDirKey | MappingFileKey | BatchSizeKey
               | FeatureSourceKey | SourceCRSKey | TargetCRSKey

  function KeyName(key: Key): (name: string)
    ensures |name| > 0
  {
    match key
    case InputFilesKey => "inputFiles"
    case OutputDirKey => "outputDir"
    case TmpDirKey => "tmpDir"
    case MappingFileKey => "mapping_file"
    case BatchSizeKey => "batchSize"
    case FeatureSourceKey => "featureSource"
    case SourceCRSKey => "sourceCRS"
    case TargetCRSKey => "targetCRS"
  }

  /** The trimmed value of a property that is present and non-empty. */
  function Setting(props: map<string, string>, key: Key): Option<string>
  {
    var name := KeyName(key);
    if name in props && props[name] != "" then Some(Trim(props[name])) else None
  }

  /** A setting is present exactly when its property is neither missing nor
    * empty, and it is the property's value without surrounding whitespace. */
  lemma SettingTrimmed(props: map<string, string>, key: Key)
    ensures var raw := if KeyName(key) in props then Some(props[KeyName(key)]) else None;
      Setting(props, key).Some? <==> !OsmAssistant.IsNullOrEmpty(raw)
    ensures var r := Setting(props, key);
      r.Some? ==> (r.value == Trim(props[KeyName(key)]) &&
        (|r.value| > 0 ==> !IsJavaSpace(r.value[0]) && !IsJavaSpace(r.value[|r.value| - 1])))
  {
  }

  /** A new setting replaces the old one; an unset one leaves it. */
  function Override(setting: Option<string>, current: Option<string>): (r: Option<string>)
    ensures setting.Some? ==> r == setting
    ensures setting.None? ==> r == current
  {
    if setting.Some? then setting else current
  }

  const BatchSizeError := "Incorrect value set for batch size. Please specify a positive integer value in your configuration file."

  datatype Settings = Settings(
    inputFiles: Option<string>,
    outputDir: Option<string>,
    tmpDir: Option<string>,
    mappingFile: Option<string>,
    batchSize: int,
    featureSource: Option<string>,
    sourceCRS: Option<string>,
    targetCRS: Option<string>)

  /** The output directory step: a present output directory gets its
    * trailing slash, and a blank one fails on `charAt(-1)`. */
  function WithOutputDir(s: Settings, props: map<string, string>, separator: char): (r: Result<Settings, string>)
    ensures r.Failure? <==> Setting(props, OutputDirKey) == Some("")
    ensures r.Success? ==> r.value == s.(outputDir := r.value.outputDir)
    ensures r.Success? && Setting(props, OutputDirKey).None? ==> r.value.outputDir == s.outputDir
    ensures r.Success? && Setting(props, OutputDirKey).Some? ==>
      r.value.outputDir == Some(OsmAssistant.WithTrailingSlash(Setting(props, OutputDirKey).value, separator).value)
  {
    var out := Setting(props, OutputDirKey);
    if out.None? then Success(s)
    else
      var dir := OsmAssistant.WithTrailingSlash(out.value, separator);
      if dir.Failure? then Failure(dir.error) else Success(s.(outputDir := Some(dir.value)))
  }

  /** The batch size step: a present batch size must parse as an integer and
    * is reset to the default outside [1, 1000]. */
  function WithBatchSize(s: Settings, props: map<string, string>): (r: Result<Settings, string>)
    ensures r.Failure? <==> Setting(props, BatchSizeKey).Some? && ParseInt(Setting(props, BatchSizeKey).value).None?
    ensures r.Success? ==> r.value == s.(batchSize := r.value.batchSize)
    ensures r.Success? && Setting(props, BatchSizeKey).None? ==> r.value.batchSize == s.batchSize
    ensures r.Success? && Setting(props, BatchSizeKey).Some? ==> 1 <= r.value.batchSize <= 1000
  {
    var batch := Setting(props, BatchSizeKey);
    if batch.None? then Success(s)
    else
      var parsed := ParseInt(batch.value);
      if parsed.None? then Failure(BatchSizeError) else Success(s.(batchSize := BatchSize(parsed.value)))
  }

  /** The plain settings, each replaced by its property when that is set. */
  function WithInputFiles(s: Settings, props: map<string, string>): Settings
  {
    var v := Setting(props, InputFilesKey);
    if v.Some? then s.(inputFiles := v) else s
  }

  function WithPaths(s: Settings, props: map<string, string>): Settings
  {
    var v := Setting(props, TmpDirKey);
    var s1 := if v.Some? then s.(tmpDir := v) else s;
    var w := Setting(props, MappingFileKey);
    if w.Some? then s1.(mappingFile := w) else s1
  }

  function WithSources(s: Settings, props: map<string, string>): Settings
  {
    var v := Setting(props, FeatureSourceKey);
    var s1 := if v.Some? then s.(featureSource := v) else s;
    var w := Setting(props, SourceCRSKey);
    var s2 := if w.Some? then s1.(sourceCRS := w) else s1;
    var x := Setting(props, TargetCRSKey);
    if x.Some? then s2.(targetCRS := x) else s2
  }

  lemma InputFilesEffect(s: Settings, props: map<string, string>)
    ensures WithInputFiles(s, props) == s.(inputFiles := Override(Setting(props, InputFilesKey), s.inputFiles))
  {
  }

  lemma PathsEffect(s: Settings, props: map<string, string>)
    ensures WithPaths(s, props) == s.(tmpDir := Override(Setting(props, TmpDirKey), s.tmpDir),
                                      mappingFile := Override(Setting(props, MappingFileKey), s.mappingFile))
  {
  }

  lemma SourcesEffect(s: Settings, props: map<string, string>)
    ensures WithSources(s, props) == s.(featureSource := Override(Setting(props, FeatureSourceKey), s.featureSource),
                                        sourceCRS := Override(Setting(props, SourceCRSKey), s.sourceCRS),
                                        targetCRS := Override(Setting(props, TargetCRSKey), s.targetCRS))
  {
  }

  /** `initializeParameters`, in the order of its statements: every property
    * that is present and non-empty replaces its setting by its trimmed value;
    * the output directory and the batch size are normalised as above. */
  function Initialized(s: Settings, props: map<string, string>, separator: char): Result<Settings, string>
  {
    match WithOutputDir(WithInputFiles(s, props), props, separator)
    case Failure(e) => Failure(e)
    case Success(s2) =>
      match WithBatchSize(WithPaths(s2, props), props)
      case Failure(e) => Failure(e)
      case Success(s4) => Success(WithSources(s4, props))
  }

  /** Initialisation fails exactly on a blank output directory or a batch
    * size that is not an integer. */
  lemma InitializedFails(s: Settings, props: map<string, string>, separator: char)
    ensures Initialized(s, props, separator).Failure? <==>
      Setting(props, OutputDirKey) == Some("") ||
      (Setting(props, BatchSizeKey).Some? && ParseInt(Setting(props, BatchSizeKey).value).None?)
  {
    var r2 := WithOutputDir(WithInputFiles(s, props), props, separator);
    if r2.Success? {
      PathsEffect(r2.value, props);
    }
  }

  /** Otherwise every present plain property replaces its setting by its
    * trimmed value, and the others stay. */
  lemma InitializedPlainSettings(s: Settings, props: map<string, string>, separator: char)
    ensures var r := Initialized(s, props, separator);
      r.Success? ==>
        r.value.inputFiles == Override(Setting(props, InputFilesKey), s.inputFiles) &&
        r.value.tmpDir == Override(Setting(props, TmpDirKey), s.tmpDir) &&
        r.value.mappingFile == Override(Setting(props, MappingFileKey), s.mappingFile) &&
        r.value.featureSource == Override(Setting(props, FeatureSourceKey), s.featureSource) &&
        r.value.sourceCRS == Override(Setting(props, SourceCRSKey), s.sourceCRS) &&
        r.value.targetCRS == Override(Setting(props, TargetCRSKey), s.targetCRS)
  {
    InputFilesEffect(s, props);
    var r2 := WithOutputDir(WithInputFiles(s, props), props, separator);
    if r2.Success? {
      PathsEffect(r2.value, props);
      var r4 := WithBatchSize(WithPaths(r2.value, props), props);
      if r4.Success? {
        SourcesEffect(r4.value, props);
      }
    }
  }

  /** The output directory ends with a slash and starts with the trimmed
    * property, and a batch size in [1, 1000] stays in that range. */
  lemma InitializedNormalised(s: Settings, props: map<string, string>, separator: char)
    ensures var r := Initialized(s, props, separator);
      r.Success? && 1 <= s.batchSize <= 1000 ==> 1 <= r.value.batchSize <= 1000
    ensures var r := Initialized(s, props, separator);
      r.Success? && Setting(props, OutputDirKey).None? ==> r.value.outputDir == s.outputDir
    ensures var r := Initialized(s, props, separator);
      r.Success? && Setting(props, OutputDirKey).Some? ==>
        var dir := Setting(props, OutputDirKey).value;
        r.value.outputDir.Some? && StartsWith(r.value.outputDir.value, dir) &&
        r.value.outputDir.value[|r.value.outputDir.value| - 1] in {separator, '/'}
  {
    InputFilesEffect(s, props);
    var r2 := WithOutputDir(WithInputFiles(s, props), props, separator);
    if r2.Success? {
      PathsEffect(r2.value, props);
      var r4 := WithBatchSize(WithPaths(r2.value, props), props);
      if r4.Success? {
        SourcesEffect(r4.value, props);
      }
    }
  }

  class Configuration {
    var inputFiles: Option<string>
    var outputDir: Option<string>
    var tmpDir: Option<string>
    var mappingFile: Option<string>
    var batchSize: int
    var featureSource: Option<string>
    var sourceCRS: Option<string>
    var targetCRS: Option<string>

    function Current(): Settings
      reads this
    {
      Settings(inputFiles, outputDir, tmpDir, mappingFile, batchSize, featureSource, sourceCRS, targetCRS)
    }

    /** Nothing is set and the batch size is the default. */
    constructor()
      ensures Current() == Settings(None, None, None, None, DefaultBatchSize, None, None, None)
    {
      inputFiles, outputDir, tmpDir, mappingFile := None, None, None, None;
      batchSize := DefaultBatchSize;
      featureSource, sourceCRS, targetCRS := None, None, None;
    }

    /** Applies the properties one by one. A failure stops the program, so
      * the settings left behind are then of no interest. */
    method InitializeParameters(props: map<string, string>, separator: char) returns (failure: Option<string>)
      modifies this
      ensures Initialized(old(Current()), props, separator) ==
        if failure.None? then Success(Current()) else Failure(failure.value)
    {
      var result := Current();
      ghost var s0 := result;
      var setting := Setting(props, InputFilesKey);
      if setting.Some? {
        result := result.(inputFiles := setting);
      }
      ghost var s1 := result;
      assert s1 == WithInputFiles(s0, props);
      setting := Setting(props, OutputDirKey);
      if setting.Some? {
        var dir := OsmAssistant.WithTrailingSlash(setting.value, separator);
        if dir.Failure? {
          return Some(dir.error);
        }
        result := result.(outputDir := Some(dir.value));
      }
      assert Success(result) == WithOutputDir(s1, props, separator);
      ghost var s2 := result;
      setting := Setting(props, TmpDirKey);
      if setting.Some? {
        result := result.(tmpDir := setting);
      }
      setting := Setting(props, MappingFileKey);
      if setting.Some? {
        result := result.(mappingFile := setting);
      }
      ghost var s3 := result;
      assert s3 == WithPaths(s2, props);
      setting := Setting(props, BatchSizeKey);
      if setting.Some? {
        var parsed := ParseInt(setting.value);
        if parsed.None? {
          return Some(BatchSizeError);
        }
        var size := parsed.value;
        if size < 1 || size > 1000 {
          size := DefaultBatchSize;
        }
        result := result.(batchSize := size);
      }
      assert WithBatchSize(s3, props) == Success(result);
      ghost var s4 := result;
      setting := Setting(props, FeatureSourceKey);
      if setting.Some? {
        result := result.(featureSource := setting);
      }
      setting := Setting(props, SourceCRSKey);
      if setting.Some? {
        result := result.(sourceCRS := setting);
      }
      setting := Setting(props, TargetCRSKey);
      if setting.Some? {
        result := result.(targetCRS := setting);
      }
      assert result == WithSources(s4, props);
      Store(result);
      return None;
    }

    /** Writes the settings into the fields. */
    method Store(settings: Settings)
      modifies this
      ensures Current() == settings
    {
      inputFiles, outputDir, tmpDir, mappingFile := settings.inputFiles, settings.outputDir, settings.tmpDir, settings.mappingFile;
      batchSize := settings.batchSize;
      featureSource, sourceCRS, targetCRS := settings.featureSource, settings.sourceCRS, settings.targetCRS;
    }

    /** `buildConfiguration`: a properties file that could not be read only
      * warns, and the settings are initialised from no properties. */
    method BuildConfiguration(loaded: Option<map<string, string>>, separator: char) returns (failure: Option<string>)
      modifies this
      ensures Initialized(old(Current()), loaded.UnwrapOr(map[]), separator) ==
        if failure.None? then Success(Current()) else Failure(failure.value)
    {
      failure := InitializeParameters(loaded.UnwrapOr(map[]), separator);
    }
  }

  /** Without properties nothing changes. */
  lemma InitializedWithoutProperties(s: Settings, separator: char)
    ensures Initialized(s, map[], separator) == Success(s)
  {
  }
}
