/** The `kv` processor (generator/kv/kv.go): splits a field into key/value pairs; Ingest only. */
module KvProc {
  import opened Wrappers
  import opened Values
  import opened Records
  import Ingest

  /** How a split option reads its pattern. */
  datatype SplitMode = NoSplitMode | ClassSplitMode | RegexSplitMode

  /** `splitConfig`: the mode and its pattern. */
  datatype SplitConfig = SplitConfig(mode: SplitMode, pattern: string)

  /** A split option that was not configured. */
  const NoSplit: SplitConfig := SplitConfig(NoSplitMode, "")

  /**
   * `splitConfig.Unpack`: the option is a one-entry section naming its mode
   * (`class` or `regex`) and giving its pattern.
   */
  function UnpackSplit(fields: map<string, string>): (r: Result<SplitConfig>)
    ensures |fields| == 0 ==> r == Err("no split option given")
    ensures |fields| > 1 ==> r == Err("more then 1 split option")
    ensures r.Ok? <==> |fields| == 1 && (OnlyKey(fields) == "class" || OnlyKey(fields) == "regex")
    ensures |fields| == 1 && OnlyKey(fields) !in {"class", "regex"} ==>
      r == Err("'" + OnlyKey(fields) + "' is no valid split mode")
    ensures r.Ok? ==> (
      r.value.pattern == fields[OnlyKey(fields)]
      && (r.value.mode == ClassSplitMode <==> OnlyKey(fields) == "class")
      && r.value.mode != NoSplitMode)
  {
    if |fields| == 0 then Err("no split option given")
    else if |fields| > 1 then Err("more then 1 split option")
    else
      var mode := OnlyKey(fields);
      if mode == "class" then Ok(SplitConfig(ClassSplitMode, fields[mode]))
      else if mode == "regex" then Ok(SplitConfig(RegexSplitMode, fields[mode]))
      else Err("'" + mode + "' is no valid split mode")
  }

  /** `ingestPattern`: a character class becomes `[chars]+`, a regex is kept. */
  function IngestPattern(c: SplitConfig): (r: Result<string>)
    ensures r.Ok? <==> c.mode != NoSplitMode
    ensures c.mode == NoSplitMode ==> r == Err("no split mode configured")
    ensures c.mode == RegexSplitMode ==> r == Ok(c.pattern)
    ensures c.mode == ClassSplitMode ==> (
      |r.value| == |c.pattern| + 3 && r.value[0] == '['
      && r.value[1..|c.pattern| + 1] == c.pattern && r.value[|c.pattern| + 1..] == "]+")
  {
    match c.mode
    case ClassSplitMode => Ok("[" + c.pattern + "]+")
    case RegexSplitMode => Ok(c.pattern)
    case NoSplitMode => Err("no split mode configured")
  }

  /** The options as read from the configuration; an absent split section is `None`. */
  datatype Config = Config(
    field: string, to: string,
    fieldSplit: Option<map<string, string>>, valueSplit: Option<map<string, string>>,
    ignoreMissing: bool, ignoreFailure: bool)

  datatype Kv = Kv(
    field: string, to: string, fieldSplit: SplitConfig, valueSplit: SplitConfig,
    ignoreMissing: bool, ignoreFailure: bool)

  function UnpackOptionalSplit(o: Option<map<string, string>>): Result<SplitConfig>
  {
    match o
    case None => Ok(NoSplit)
    case Some(fields) => UnpackSplit(fields)
  }

  /** `makeKV`: the required options in order, then the two split sections. */
  function Make(c: Config): (r: Result<Kv>)
    ensures c.field == "" ==> r == Err(MissingField("field"))
    ensures c.field != "" && c.to == "" ==> r == Err(MissingField("to"))
    ensures r.Ok? <==> (c.field != "" && c.to != ""
                        && UnpackOptionalSplit(c.fieldSplit).Ok? && UnpackOptionalSplit(c.valueSplit).Ok?)
    ensures c.field != "" && c.to != "" && UnpackOptionalSplit(c.fieldSplit).Err? ==>
      r == Err(UnpackOptionalSplit(c.fieldSplit).error)
    ensures c.field != "" && c.to != "" && UnpackOptionalSplit(c.fieldSplit).Ok? && UnpackOptionalSplit(c.valueSplit).Err? ==>
      r == Err(UnpackOptionalSplit(c.valueSplit).error)
    ensures r.Ok? && c.fieldSplit.None? ==> r.value.fieldSplit == NoSplit
    ensures r.Ok? && c.valueSplit.None? ==> r.value.valueSplit == NoSplit
    ensures r.Ok? ==> r.value == Kv(c.field, c.to, UnpackOptionalSplit(c.fieldSplit).value,
                                    UnpackOptionalSplit(c.valueSplit).value, c.ignoreMissing, c.ignoreFailure)
  {
    if c.field == "" then Err(MissingField("field"))
    else if c.to == "" then Err(MissingField("to"))
    else
      var fs :- UnpackOptionalSplit(c.fieldSplit);
      var vs :- UnpackOptionalSplit(c.valueSplit);
      Ok(Kv(c.field, c.to, fs, vs, c.ignoreMissing, c.ignoreFailure))
  }

  /** `CompileIngest`: one `kv` step, or the pattern error of the side it concerns. */
  function CompileIngest(k: Kv): (r: Result<seq<Ingest.Step>>)
    ensures IngestPattern(k.fieldSplit).Err? ==> r == Err(IngestPattern(k.fieldSplit).error + " on field")
    ensures IngestPattern(k.fieldSplit).Ok? && IngestPattern(k.valueSplit).Err? ==>
      r == Err(IngestPattern(k.valueSplit).error + " on value")
    ensures r.Ok? <==> k.fieldSplit.mode != NoSplitMode && k.valueSplit.mode != NoSplitMode
    ensures r.Ok? ==> (
      |r.value| == 1 && r.value[0].Keys == {"kv"}
      && var p := r.value[0]["kv"];
      p.Keys <= {"field", "field_split", "value_split", "target_field", "ignore_missing", "ignore_failure"}
      && "field" in p && p["field"] == Str(k.field)
      && "field_split" in p && p["field_split"] == Str(IngestPattern(k.fieldSplit).value)
      && "value_split" in p && p["value_split"] == Str(IngestPattern(k.valueSplit).value)
      && OptionalStr(p, "target_field", k.to)
      && Flag(p, "ignore_missing", k.ignoreMissing) && Flag(p, "ignore_failure", k.ignoreFailure))
  {
    match IngestPattern(k.fieldSplit)
    case Err(e) => Err(e + " on field")
    case Ok(fieldSplit) =>
      match IngestPattern(k.valueSplit)
      case Err(e) => Err(e + " on value")
      case Ok(valueSplit) =>
        var p := map["field" := Str(k.field), "field_split" := Str(fieldSplit), "value_split" := Str(valueSplit)];
        var p := if k.to != "" then p["target_field" := Str(k.to)] else p;
        var p := if k.ignoreMissing then p["ignore_missing" := Bool(true)] else p;
        var p := if k.ignoreFailure then p["ignore_failure" := Bool(true)] else p;
        Ok(Ingest.MakeSingleProcessor("kv", p))
  }

  /** The error of the Logstash target, which has no `kv` translation. */
  const LogstashError: string := "TODO (logstash kv filter)"
}
