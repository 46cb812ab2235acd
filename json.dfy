/** The `json` processor (generator/json/json.go): decodes a JSON field; Ingest only. */
module JsonProc {
  import opened Wrappers
  import opened Values
  import opened Records
  import Ingest

  datatype Config = Config(field: string, to: string, ignoreFailure: bool, dropField: bool)

  /** `makeProcessor`. */
  function Make(c: Config): (r: Result<Config>)
    ensures r.Ok? <==> c.field != ""
    ensures r.Err? ==> r.error == MissingField("field")
    ensures r.Ok? ==> r.value == c
  {
    if c.field == "" then Err(MissingField("field")) else Ok(c)
  }

  /** The parameters of the Ingest `json` step: the decoded object goes to `To`, or to the root. */
  function IngestParams(j: Config): (p: Params)
    ensures "field" in p && p["field"] == Str(j.field)
    ensures OptionalStr(p, "target_field", j.to)
    ensures Flag(p, "add_to_root", j.to == "")
    ensures ("target_field" in p) != ("add_to_root" in p)
    ensures Flag(p, "ignore_failure", j.ignoreFailure)
    ensures p.Keys <= {"field", "target_field", "add_to_root", "ignore_failure"}
  {
    var p := map["field" := Str(j.field)];
    var p := if j.to != "" then p["target_field" := Str(j.to)] else p["add_to_root" := Bool(true)];
    if j.ignoreFailure then p["ignore_failure" := Bool(true)] else p
  }

  /** `CompileIngest`. */
  function CompileIngest(j: Config): (ps: seq<Ingest.Step>)
    ensures |ps| == if j.dropField then 2 else 1
    ensures ps[0] == Ingest.MakeProcessor("json", IngestParams(j))
    ensures j.dropField ==> ps[1] == Ingest.RemoveField(j.field)
  {
    Ingest.WithDrop(Ingest.MakeSingleProcessor("json", IngestParams(j)), j.dropField, j.field)
  }

  /** The error of the Logstash target. */
  const LogstashError: string := "TODO (logstash json)"
}
