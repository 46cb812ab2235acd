/** The `split` processor (generator/split/split.go): splits a field into a list. */
module SplitProc {
  import opened Wrappers
  import opened Values
  import opened Strs
  import opened Records
  import opened LsAst
  import opened GenLs
  import Ingest

  /** The options; the loaded processor is the same record. */
  datatype Config = Config(field: string, separator: string, regex: string, to: string, dropField: bool)

  /** `config.Validate`: exactly one of `separator` and `regex`. */
  function Validate(c: Config): (err: Option<string>)
    ensures err.None? <==> (c.separator == "") != (c.regex == "")
  {
    if c.separator == "" && c.regex == "" then Some("split requires separator or regex setting")
    else if c.separator != "" && c.regex != "" then Some("separator and regex set")
    else None
  }

  /** `makeSplit`. */
  function Make(c: Config): (r: Result<Config>)
    ensures c.field == "" ==> r == Err(MissingField("field"))
    ensures c.field != "" && Validate(c).Some? ==> r == Err(Validate(c).value)
    ensures r.Ok? <==> c.field != "" && Validate(c).None?
    ensures r.Ok? ==> r.value == c
  {
    if c.field == "" then Err(MissingField("field"))
    else match Validate(c)
      case Some(e) => Err(e)
      case None => Ok(c)
  }

  /** The Painless snippet of the separator form (kept as the source spells it). */
  function PainlessSplit(target: string, source: string, sep: string): string
  {
    "ctx." + target + " = ctx." + source + ".split(Patter.quote(\"" + Quote(sep) + "\")"
  }

  /** The Ingest step: a `split` on the regex, or a Painless script splitting on the separator. */
  function IngestStep(s: Config): (p: Ingest.Step)
    ensures s.regex != "" ==> (
      p.Keys == {"split"}
      && p["split"].Keys <= {"field", "separator", "target_field"}
      && "field" in p["split"] && p["split"]["field"] == Str(s.field)
      && "separator" in p["split"] && p["split"]["separator"] == Str(s.regex)
      && OptionalStr(p["split"], "target_field", s.to))
    ensures s.regex == "" ==> (
      p.Keys == {"script"}
      && p["script"] == map["lang" := Str("painless"),
                            "source" := Str(PainlessSplit(if s.to == "" then s.field else s.to, s.field, s.separator))])
  {
    if s.regex != "" then
      var params := map["field" := Str(s.field), "separator" := Str(s.regex)];
      Ingest.MakeProcessor("split", if s.to != "" then params["target_field" := Str(s.to)] else params)
    else
      var target := if s.to == "" then s.field else s.to;
      Ingest.MakeProcessor("script", map[
        "lang" := Str("painless"),
        "source" := Str(PainlessSplit(target, s.field, s.separator))])
  }

  /** `CompileIngest`. */
  function CompileIngest(s: Config): (ps: seq<Ingest.Step>)
    ensures |ps| == if s.dropField then 2 else 1
    ensures ps[0] == IngestStep(s)
    ensures s.dropField ==> ps[1] == Ingest.RemoveField(s.field)
  {
    Ingest.WithDrop(Ingest.Single(IngestStep(s)), s.dropField, s.field)
  }

  /** The Ruby snippet of the regex form: both fields normalized and quoted. */
  function RubySplit(target: string, source: string, regex: string): string
  {
    "event.set(" + Quote(NormalizedField(target)) + ", event.get(" + Quote(NormalizedField(source))
      + ").split(/" + regex + "/))"
  }

  /** The Logstash filter: a `ruby` snippet on the regex, or a `split` filter on the separator. */
  function LogstashFilter(s: Config): (f: Statement)
    ensures f.Filter?
    ensures s.regex != "" ==> (
      f.name == "ruby" && "code" in f.params
      && f.params["code"] == Str(RubySplit(if s.to == "" then s.field else s.to, s.field, s.regex))
      && f.params.Keys <= {"code", "remove_field"})
    ensures s.regex == "" ==> (
      f.name == "split" && "terminator" in f.params
      && f.params["terminator"] == Str(s.separator)
      && ("target" in f.params <==> s.to != "")
      && (s.to != "" ==> f.params["target"] == Str(NormalizedField(s.to)))
      && f.params.Keys <= {"terminator", "target", "remove_field"})
    ensures "remove_field" in f.params <==> s.dropField
    ensures s.dropField ==> f.params["remove_field"] == StrList([NormalizedField(s.field)])
  {
    var params :=
      if s.regex != "" then
        map["code" := Str(RubySplit(if s.to == "" then s.field else s.to, s.field, s.regex))]
      else
        Target(map["terminator" := Str(s.separator)], s.to);
    Filter(if s.regex != "" then "ruby" else "split", DropField(params, s.dropField, s.field))
  }

  /** `CompileLogstash`: the one filter, which sets no failure tag. */
  function CompileLogstash(s: Config): (b: FilterBlock)
    ensures b.failureTags == [] && b.block == [LogstashFilter(s)]
  {
    FilterBlock([LogstashFilter(s)], [])
  }
}
