/** The `user_agent` processor (generator/useragent/useragent.go): parses a user agent string. */
module UserAgentProc {
  import opened Wrappers
  import opened Values
  import opened Records
  import opened LsAst
  import opened GenLs
  import Ingest

  datatype Config = Config(field: string, to: string, dropField: bool, ignoreFailure: bool)

  /** `makeUserAgent`. */
  function Make(c: Config): (r: Result<Config>)
    ensures r.Ok? <==> c.field != ""
    ensures r.Err? ==> r.error == MissingField("field")
    ensures r.Ok? ==> r.value == c
  {
    if c.field == "" then Err(MissingField("field")) else Ok(c)
  }

  /** The parameters of the Ingest `user_agent` step. */
  function IngestParams(u: Config): (p: Params)
    ensures "field" in p && p["field"] == Str(u.field)
    ensures OptionalStr(p, "target_field", u.to)
    ensures Flag(p, "ignore_failure", u.ignoreFailure)
    ensures p.Keys <= {"field", "target_field", "ignore_failure"}
  {
    var p := map["field" := Str(u.field)];
    var p := if u.to != "" then p["target_field" := Str(u.to)] else p;
    if u.ignoreFailure then p["ignore_failure" := Bool(true)] else p
  }

  /** `CompileIngest`. */
  function CompileIngest(u: Config): (ps: seq<Ingest.Step>)
    ensures |ps| == if u.dropField then 2 else 1
    ensures ps[0] == Ingest.MakeProcessor("user_agent", IngestParams(u))
    ensures u.dropField ==> ps[1] == Ingest.RemoveField(u.field)
  {
    Ingest.WithDrop(Ingest.MakeSingleProcessor("user_agent", IngestParams(u)), u.dropField, u.field)
  }

  /** The parameters of the Logstash `useragent` filter. */
  function LogstashParams(u: Config): (p: Params)
    ensures "source" in p && p["source"] == Str(NormalizedField(u.field))
    ensures ("target" in p <==> u.to != "") && (u.to != "" ==> p["target"] == Str(NormalizedField(u.to)))
    ensures ("remove_field" in p <==> u.dropField)
    ensures u.dropField ==> p["remove_field"] == StrList([NormalizedField(u.field)])
    ensures p.Keys <= {"source", "target", "remove_field"}
  {
    var p := map["source" := Str(NormalizedField(u.field))];
    var p := Target(p, u.to);
    DropField(p, u.dropField, u.field)
  }

  /**
   * The compiled unit for a given failure tag: one nested block in which
   * the tag is added and then the filter runs as a nested block of its
   * own; the unit reports that tag.
   */
  function LogstashBlock(u: Config, tag: string, verbose: bool): (b: FilterBlock)
    ensures b.failureTags == [tag]
    ensures |b.block| == if verbose then 2 else 1
    ensures b.block[0] == Nested(RunWithTags([Filter("useragent", LogstashParams(u))], [tag]))
    ensures verbose ==> b.block[1] == MakePrintEventDebug("useragent")
  {
    var blk := RunWithTags([Filter("useragent", LogstashParams(u))], [tag]);
    FilterBlock(MakeVerboseBlock(verbose, "useragent", [Nested(blk)]), [tag])
  }

  /** The Logstash compilation from counter value `count`: a `_failure_useragent` tag unless failures are ignored. */
  function Logstash(u: Config, verbose: bool, count: nat): (r: (FilterBlock, nat))
    ensures r.1 == if u.ignoreFailure then count else count + 1
    ensures r.0.failureTags == [if u.ignoreFailure then "" else MintTag("_failure_useragent", count + 1)]
    ensures |r.0.block| >= 1 && r.0.block[0].Nested? && |r.0.block[0].block| == 2
    ensures r.0.block[0].block[0] == Filter("mutate", map["add_tag" := StrList(r.0.failureTags)])
  {
    var (tag, next) := OptionalTag(u.ignoreFailure, "_failure_useragent", count);
    (LogstashBlock(u, tag, verbose), next)
  }

  /** `CompileLogstash`: mints the tag on the shared counter. */
  method CompileLogstash(u: Config, ctx: LogstashCtx) returns (r: FilterBlock)
    modifies ctx
    ensures (r, ctx.tagCount) == Logstash(u, ctx.verbose, old(ctx.tagCount))
  {
    var tag := "";
    if !u.ignoreFailure {
      tag := ctx.CreateTag("_failure_useragent");
    }
    r := LogstashBlock(u, tag, ctx.verbose);
  }
}
