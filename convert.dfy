/** The `convert` processor (generator/convert/convert.go): changes a field's type; Ingest only. */
module ConvertProc {
  import opened Wrappers
  import opened Values
  import opened Records
  import Ingest

  /** `convType`; the zero value is the invalid type. */
  datatype ConvType = InvalidConv | ConvBool | ConvInt | ConvFloat | ConvString

  /** `convType.String`: the Ingest name of a type (empty for the invalid one). */
  function TypeName(t: ConvType): (n: string)
    ensures n == "" <==> t == InvalidConv
  {
    match t
    case ConvBool => "bool"
    case ConvInt => "integer"
    case ConvFloat => "float"
    case ConvString => "string"
    case InvalidConv => ""
  }

  /** `getConvType`: the type a configuration name denotes; `int` is an alias of `integer`. */
  function GetConvType(name: string): (t: ConvType)
    ensures t != InvalidConv <==> name in {"bool", "integer", "int", "float", "string"}
    ensures t != InvalidConv && name != "int" ==> TypeName(t) == name
  {
    if name == "bool" then ConvBool
    else if name == "integer" || name == "int" then ConvInt
    else if name == "float" then ConvFloat
    else if name == "string" then ConvString
    else InvalidConv
  }

  /** Every valid type is read back from its own name. */
  lemma GetConvTypeName(t: ConvType)
    requires t != InvalidConv
    ensures GetConvType(TypeName(t)) == t
  {
    match t
    case ConvBool =>
    case ConvInt => assert TypeName(t) != "bool";
    case ConvFloat => assert TypeName(t) != "bool" && TypeName(t) != "integer";
    case ConvString =>
  }

  /** `convType.Unpack`: a known name, or an error naming it. */
  function UnpackConvType(name: string): (r: Result<ConvType>)
    ensures r.Ok? <==> GetConvType(name) != InvalidConv
    ensures r.Ok? ==> r.value == GetConvType(name)
    ensures r.Err? ==> r.error == "type '" + name + "' not supported"
  {
    var v := GetConvType(name);
    if v == InvalidConv then Err("type '" + name + "' not supported") else Ok(v)
  }

  /** The options as read from the configuration; `ignoreMissing` is `None` when not given. */
  datatype Config = Config(
    field: string, to: string, typeName: string, ignoreMissing: Option<bool>,
    ignoreFailure: bool, dropField: bool)

  datatype Convert = Convert(
    field: string, to: string, typ: ConvType, ignoreMissing: bool,
    ignoreFailure: bool, dropField: bool)

  /** `defaultConfig`: missing fields are ignored unless configured otherwise. */
  const DefaultIgnoreMissing: bool := true

  /** `makeConvert`. */
  function Make(c: Config): (r: Result<Convert>)
    ensures c.field == "" ==> r == Err(MissingField("field"))
    ensures c.field != "" && c.typeName == "" ==> r == Err(MissingField("type"))
    ensures r.Ok? <==> c.field != "" && c.typeName != "" && UnpackConvType(c.typeName).Ok?
    ensures r.Ok? ==> r.value.typ == GetConvType(c.typeName) && r.value.typ != InvalidConv
    ensures r.Ok? && c.ignoreMissing.None? ==> r.value.ignoreMissing
    ensures r.Ok? && c.ignoreMissing.Some? ==> r.value.ignoreMissing == c.ignoreMissing.value
    ensures c.field != "" && c.typeName != "" && r.Err? ==> r.error == "type '" + c.typeName + "' not supported"
    ensures r.Ok? ==> (r.value.field == c.field && r.value.to == c.to
                       && r.value.ignoreFailure == c.ignoreFailure && r.value.dropField == c.dropField)
  {
    if c.field == "" then Err(MissingField("field"))
    else if c.typeName == "" then Err(MissingField("type"))
    else
      var t :- UnpackConvType(c.typeName);
      var ignoreMissing := match c.ignoreMissing case Some(b) => b case None => DefaultIgnoreMissing;
      Ok(Convert(c.field, c.to, t, ignoreMissing, c.ignoreFailure, c.dropField))
  }

  /** The parameters of the Ingest `convert` step. */
  function IngestParams(c: Convert): (p: Params)
    ensures "field" in p && p["field"] == Str(c.field)
    ensures "type" in p && p["type"] == Str(TypeName(c.typ))
    ensures OptionalStr(p, "target_field", c.to)
    ensures Flag(p, "ignore_missing", c.ignoreMissing) && Flag(p, "ignore_failure", c.ignoreFailure)
    ensures p.Keys <= {"field", "type", "target_field", "ignore_missing", "ignore_failure"}
  {
    var p := map["field" := Str(c.field), "type" := Str(TypeName(c.typ))];
    var p := if c.to != "" then p["target_field" := Str(c.to)] else p;
    var p := if c.ignoreMissing then p["ignore_missing" := Bool(true)] else p;
    if c.ignoreFailure then p["ignore_failure" := Bool(true)] else p
  }

  /** `CompileIngest`. */
  function CompileIngest(c: Convert): (ps: seq<Ingest.Step>)
    ensures |ps| == if c.dropField then 2 else 1
    ensures ps[0] == Ingest.MakeProcessor("convert", IngestParams(c))
    ensures c.dropField ==> ps[1] == Ingest.RemoveField(c.field)
  {
    Ingest.WithDrop(Ingest.MakeSingleProcessor("convert", IngestParams(c)), c.dropField, c.field)
  }

  /** The error of the Logstash target. */
  const LogstashError: string := "TODO (logstash convert)"
}
