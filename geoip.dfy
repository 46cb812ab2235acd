/** The `geoip` processor (generator/geoip/geoip.go): looks up an IP address. */
module GeoipProc {
  import opened Wrappers
  import opened Values
  import opened Records
  import opened LsAst
  import opened GenLs
  import Ingest

  datatype Config = Config(field: string, to: string, dropField: bool)

  /** `makeGeoip`. */
  function Make(c: Config): (r: Result<Config>)
    ensures r.Ok? <==> c.field != ""
    ensures r.Err? ==> r.error == MissingField("field")
    ensures r.Ok? ==> r.value == c
  {
    if c.field == "" then Err(MissingField("field")) else Ok(c)
  }

  /** The parameters of the Ingest `geoip` step. */
  function IngestParams(g: Config): (p: Params)
    ensures "field" in p && p["field"] == Str(g.field)
    ensures OptionalStr(p, "target_field", g.to)
    ensures p.Keys <= {"field", "target_field"}
  {
    var p := map["field" := Str(g.field)];
    if g.to != "" then p["target_field" := Str(g.to)] else p
  }

  /** `CompileIngest`. */
  function CompileIngest(g: Config): (ps: seq<Ingest.Step>)
    ensures |ps| == if g.dropField then 2 else 1
    ensures ps[0] == Ingest.MakeProcessor("geoip", IngestParams(g))
    ensures g.dropField ==> ps[1] == Ingest.RemoveField(g.field)
  {
    Ingest.WithDrop(Ingest.MakeSingleProcessor("geoip", IngestParams(g)), g.dropField, g.field)
  }

  /** The parameters of the Logstash `geoip` filter. */
  function LogstashParams(g: Config): (p: Params)
    ensures "source" in p && p["source"] == Str(NormalizedField(g.field))
    ensures ("target" in p <==> g.to != "") && (g.to != "" ==> p["target"] == Str(NormalizedField(g.to)))
    ensures ("remove_field" in p <==> g.dropField)
    ensures g.dropField ==> p["remove_field"] == StrList([NormalizedField(g.field)])
    ensures p.Keys <= {"source", "target", "remove_field"}
  {
    DropField(Target(map["source" := Str(NormalizedField(g.field))], g.to), g.dropField, g.field)
  }

  /** `CompileLogstash`: exactly one `geoip` filter, no failure tag. */
  function CompileLogstash(g: Config): (b: FilterBlock)
    ensures b.failureTags == [] && b.block == [Filter("geoip", LogstashParams(g))]
  {
    FilterBlock([Filter("geoip", LogstashParams(g))], [])
  }
}
