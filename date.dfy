/** The `date` processor (generator/date/date.go): parses a timestamp field. */
module DateProc {
  import opened Wrappers
  import opened Values
  import opened Records
  import opened LsAst
  import opened GenLs
  import Ingest

  /** The options as read from the configuration. */
  datatype Config = Config(
    field: string, to: string, format: string, formats: seq<string>,
    locale: string, timezone: string, dropField: bool, ignoreFailure: bool)

  /** The loaded processor: a single `format` is folded into `formats`. */
  datatype Date = Date(
    field: string, to: string, formats: seq<string>,
    locale: string, timezone: string, dropField: bool, ignoreFailure: bool)

  /** `config.Validate`: `format` and `formats` exclude each other. */
  function Validate(c: Config): (err: Option<string>)
    ensures err.Some? <==> |c.formats| > 0 && c.format != ""
  {
    if |c.formats| > 0 && c.format != "" then Some("format and formats is configured") else None
  }

  /** `makeDate`. */
  function Make(c: Config): (r: Result<Date>)
    ensures c.field == "" ==> r == Err(MissingField("field"))
    ensures c.field != "" && Validate(c).Some? ==> r == Err(Validate(c).value)
    ensures r.Ok? <==> c.field != "" && Validate(c).None?
    ensures r.Ok? && c.format != "" ==> r.value.formats == [c.format]
    ensures r.Ok? && c.format == "" ==> r.value.formats == c.formats
    ensures r.Ok? ==> (r.value.field == c.field && r.value.to == c.to && r.value.locale == c.locale
                       && r.value.timezone == c.timezone && r.value.dropField == c.dropField
                       && r.value.ignoreFailure == c.ignoreFailure)
  {
    if c.field == "" then Err(MissingField("field"))
    else match Validate(c)
      case Some(e) => Err(e)
      case None =>
        var formats := if c.format != "" then [c.format] else c.formats;
        Ok(Date(c.field, c.to, formats, c.locale, c.timezone, c.dropField, c.ignoreFailure))
  }

  /** The parameters of the Ingest `date` step. */
  function IngestParams(d: Date): (p: Params)
    ensures "field" in p && p["field"] == Str(d.field)
    ensures "formats" in p && p["formats"] == StrList(d.formats)
    ensures OptionalStr(p, "target_field", d.to)
    ensures OptionalStr(p, "timezone", d.timezone)
    ensures OptionalStr(p, "locale", d.locale)
    ensures Flag(p, "ignore_failure", d.ignoreFailure)
    ensures p.Keys <= {"field", "formats", "target_field", "timezone", "locale", "ignore_failure"}
  {
    var p := map["field" := Str(d.field), "formats" := StrList(d.formats)];
    var p := if d.to != "" then p["target_field" := Str(d.to)] else p;
    var p := if d.timezone != "" then p["timezone" := Str(d.timezone)] else p;
    var p := if d.locale != "" then p["locale" := Str(d.locale)] else p;
    if d.ignoreFailure then p["ignore_failure" := Bool(true)] else p
  }

  /** `CompileIngest`: the `date` step, then the removal of the source field when asked. */
  function CompileIngest(d: Date): (ps: seq<Ingest.Step>)
    ensures |ps| == if d.dropField then 2 else 1
    ensures ps[0] == Ingest.MakeProcessor("date", IngestParams(d))
    ensures d.dropField ==> ps[1] == Ingest.RemoveField(d.field)
  {
    Ingest.WithDrop(Ingest.MakeSingleProcessor("date", IngestParams(d)), d.dropField, d.field)
  }

  /** The parameters of the Logstash `date` filter, given the failure tag (empty for none). */
  function LogstashParams(d: Date, tag: string): (p: Params)
    ensures "match" in p && p["match"] == StrList([NormalizedField(d.field)] + d.formats)
    ensures OptionalStr(p, "tag_on_failure", tag)
    ensures ("target" in p <==> d.to != "") && (d.to != "" ==> p["target"] == Str(NormalizedField(d.to)))
    ensures ("remove_field" in p <==> d.dropField)
    ensures d.dropField ==> p["remove_field"] == StrList([NormalizedField(d.field)])
    ensures OptionalStr(p, "timezone", d.timezone)
    ensures OptionalStr(p, "locale", d.locale)
    ensures p.Keys <= {"match", "tag_on_failure", "target", "remove_field", "timezone", "locale"}
  {
    var p := FieldParams(d, tag);
    var p := if d.timezone != "" then p["timezone" := Str(d.timezone)] else p;
    if d.locale != "" then p["locale" := Str(d.locale)] else p
  }

  /** The field-related part of the `date` parameters: match, failure tag, target and dropped field. */
  function FieldParams(d: Date, tag: string): (p: Params)
    ensures "match" in p && p["match"] == StrList([NormalizedField(d.field)] + d.formats)
    ensures OptionalStr(p, "tag_on_failure", tag)
    ensures ("target" in p <==> d.to != "") && (d.to != "" ==> p["target"] == Str(NormalizedField(d.to)))
    ensures ("remove_field" in p <==> d.dropField)
    ensures d.dropField ==> p["remove_field"] == StrList([NormalizedField(d.field)])
    ensures p.Keys <= {"match", "tag_on_failure", "target", "remove_field"}
  {
    var p := map["match" := StrList([NormalizedField(d.field)] + d.formats)];
    var p := if tag != "" then p["tag_on_failure" := Str(tag)] else p;
    var p := Target(p, d.to);
    DropField(p, d.dropField, d.field)
  }

  /** The compiled unit for a given failure tag: one `date` filter, which reports that tag. */
  function LogstashBlock(d: Date, tag: string, verbose: bool): (b: FilterBlock)
    ensures b.failureTags == [tag]
    ensures |b.block| == if verbose then 2 else 1
    ensures b.block[0] == Filter("date", LogstashParams(d, tag))
    ensures verbose ==> b.block[1] == MakePrintEventDebug("date")
  {
    FilterBlock(MakeVerboseBlock(verbose, "date", [Filter("date", LogstashParams(d, tag))]), [tag])
  }

  /**
   * The Logstash compilation from counter value `count`: a `_failure_date`
   * tag is minted, and set on failure, unless failures are ignored.
   */
  function Logstash(d: Date, verbose: bool, count: nat): (r: (FilterBlock, nat))
    ensures r.1 == if d.ignoreFailure then count else count + 1
    ensures r.0.failureTags == [if d.ignoreFailure then "" else MintTag("_failure_date", count + 1)]
    ensures |r.0.block| >= 1 && r.0.block[0] == Filter("date", LogstashParams(d, r.0.failureTags[0]))
  {
    var (tag, next) := OptionalTag(d.ignoreFailure, "_failure_date", count);
    (LogstashBlock(d, tag, verbose), next)
  }

  /** `CompileLogstash`: mints the tag on the shared counter. */
  method CompileLogstash(d: Date, ctx: LogstashCtx) returns (r: FilterBlock)
    modifies ctx
    ensures (r, ctx.tagCount) == Logstash(d, ctx.verbose, old(ctx.tagCount))
  {
    var tag := "";
    if !d.ignoreFailure {
      tag := ctx.CreateTag("_failure_date");
    }
    r := LogstashBlock(d, tag, ctx.verbose);
  }
}
