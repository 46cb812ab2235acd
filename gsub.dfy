/** The `gsub` processor (generator/gsub/gsub.go): pattern replacement in a field; Ingest only. */
module GsubProc {
  import opened Wrappers
  import opened Values
  import opened Records
  import Ingest

  datatype Config = Config(
    field: string, pattern: string, replacement: string, to: string,
    ignoreMissing: bool, ignoreFailure: bool, dropField: bool)

  /** `makeGsub`: field, pattern and replacement are required, in that order. */
  function Make(c: Config): (r: Result<Config>)
    ensures r.Ok? <==> c.field != "" && c.pattern != "" && c.replacement != ""
    ensures c.field == "" ==> r == Err(MissingField("field"))
    ensures c.field != "" && c.pattern == "" ==> r == Err(MissingField("pattern"))
    ensures c.field != "" && c.pattern != "" && c.replacement == "" ==> r == Err(MissingField("replacement"))
    ensures r.Ok? ==> r.value == c
  {
    if c.field == "" then Err(MissingField("field"))
    else if c.pattern == "" then Err(MissingField("pattern"))
    else if c.replacement == "" then Err(MissingField("replacement"))
    else Ok(c)
  }

  /** `Name`. */
  const Name: string := "gsub"

  /** The parameters of the Ingest `gsub` step. */
  function IngestParams(g: Config): (p: Params)
    ensures "field" in p && p["field"] == Str(g.field)
    ensures "pattern" in p && p["pattern"] == Str(g.pattern)
    ensures "replacement" in p && p["replacement"] == Str(g.replacement)
    ensures OptionalStr(p, "target_field", g.to)
    ensures Flag(p, "ignore_missing", g.ignoreMissing) && Flag(p, "ignore_failure", g.ignoreFailure)
    ensures p.Keys <= {"field", "pattern", "replacement", "target_field", "ignore_missing", "ignore_failure"}
  {
    var p := map["field" := Str(g.field), "pattern" := Str(g.pattern), "replacement" := Str(g.replacement)];
    var p := if g.to != "" then p["target_field" := Str(g.to)] else p;
    var p := if g.ignoreMissing then p["ignore_missing" := Bool(true)] else p;
    if g.ignoreFailure then p["ignore_failure" := Bool(true)] else p
  }

  /** `CompileIngest`. */
  function CompileIngest(g: Config): (ps: seq<Ingest.Step>)
    ensures |ps| == if g.dropField then 2 else 1
    ensures ps[0] == Ingest.MakeProcessor("gsub", IngestParams(g))
    ensures g.dropField ==> ps[1] == Ingest.RemoveField(g.field)
  {
    Ingest.WithDrop(Ingest.MakeSingleProcessor("gsub", IngestParams(g)), g.dropField, g.field)
  }

  /** The error of the Logstash target. */
  const LogstashError: string := "TODO (logstash gsub)"
}
