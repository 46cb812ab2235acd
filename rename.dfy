/** The `rename` processor (generator/rename/rename.go): moves a field. */
module RenameProc {
  import opened Wrappers
  import opened Values
  import opened Records
  import opened LsAst
  import opened GenLs
  import Ingest

  /** The options as read from the configuration; `ignoreMissing` is `None` when not given. */
  datatype Config = Config(field: string, to: string, ignoreMissing: Option<bool>)

  datatype Rename = Rename(field: string, to: string, ignoreMissing: bool)

  /** `defaultConfig`: missing fields are ignored unless configured otherwise. */
  const DefaultIgnoreMissing: bool := true

  /** `makeRename`: field and target are required. */
  function Make(c: Config): (r: Result<Rename>)
    ensures r.Ok? <==> c.field != "" && c.to != ""
    ensures c.field == "" ==> r == Err(MissingField("field"))
    ensures c.field != "" && c.to == "" ==> r == Err(MissingField("to"))
    ensures r.Ok? ==> r.value.field == c.field && r.value.to == c.to
    ensures r.Ok? ==> r.value.ignoreMissing == (c.ignoreMissing.None? || c.ignoreMissing.value)
  {
    if c.field == "" then Err(MissingField("field"))
    else if c.to == "" then Err(MissingField("to"))
    else
      var ignoreMissing := match c.ignoreMissing case Some(b) => b case None => DefaultIgnoreMissing;
      Ok(Rename(c.field, c.to, ignoreMissing))
  }

  /** `CompileIngest`: one `rename` step. */
  function CompileIngest(r: Rename): (ps: seq<Ingest.Step>)
    ensures |ps| == 1 && ps[0].Keys == {"rename"}
    ensures ps[0]["rename"].Keys <= {"field", "target_field", "ignore_missing"}
    ensures "field" in ps[0]["rename"] && ps[0]["rename"]["field"] == Str(r.field)
    ensures "target_field" in ps[0]["rename"] && ps[0]["rename"]["target_field"] == Str(r.to)
    ensures Flag(ps[0]["rename"], "ignore_missing", r.ignoreMissing)
  {
    var p := map["field" := Str(r.field), "target_field" := Str(r.to)];
    Ingest.MakeSingleProcessor("rename", if r.ignoreMissing then p["ignore_missing" := Bool(true)] else p)
  }

  /** `CompileLogstash`: one `mutate` renaming the normalized field to the normalized target. */
  function CompileLogstash(r: Rename): (b: FilterBlock)
    ensures b.failureTags == [] && |b.block| == 1
    ensures b.block[0] == Filter("mutate", map["rename" := Obj(map[NormalizedField(r.field) := Str(NormalizedField(r.to))])])
  {
    FilterBlock([Filter("mutate", map["rename" := Obj(map[NormalizedField(r.field) := Str(NormalizedField(r.to))])])], [])
  }
}
