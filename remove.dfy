/** The `remove` processor (generator/remove/remove.go): deletes a field. */
module RemoveProc {
  import opened Wrappers
  import opened Values
  import opened Records
  import opened LsAst
  import opened GenLs
  import Ingest

  datatype Config = Config(field: string)

  /** `makeRemove`: the field is required. */
  function Make(c: Config): (r: Result<Config>)
    ensures r.Ok? <==> c.field != ""
    ensures r.Err? ==> r.error == MissingField("field")
    ensures r.Ok? ==> r.value == c
  {
    if c.field == "" then Err(MissingField("field")) else Ok(c)
  }

  /** `CompileIngest`: exactly one `remove` step, whose only parameter is the field. */
  function CompileIngest(r: Config): (ps: seq<Ingest.Step>)
    ensures |ps| == 1 && ps[0].Keys == {"remove"}
    ensures ps[0]["remove"] == map["field" := Str(r.field)]
  {
    Ingest.MakeSingleProcessor("remove", map["field" := Str(r.field)])
  }

  /** `CompileLogstash`: one `mutate` whose only parameter removes the normalized field. */
  function CompileLogstash(r: Config, verbose: bool): (b: FilterBlock)
    ensures b.failureTags == []
    ensures |b.block| == if verbose then 2 else 1
    ensures b.block[0] == Filter("mutate", map["remove_field" := StrList([NormalizedField(r.field)])])
    ensures verbose ==> b.block[1] == MakePrintEventDebug("remove")
  {
    var params := RemoveField(map[], r.field);
    assert params == map["remove_field" := StrList([NormalizedField(r.field)])];
    FilterBlock(MakeVerboseBlock(verbose, "remove", [Filter("mutate", params)]), [])
  }
}
