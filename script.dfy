/** The `script` processor (generator/script/script.go): a Painless script; Ingest only. */
module ScriptProc {
  import opened Wrappers
  import opened Values
  import opened Strs
  import Ingest

  /** The options: inline code or a stored script id. */
  datatype Config = Config(code: string, id: string)

  /** `config.Validate`: exactly one of code and id. */
  function Validate(c: Config): (err: Option<string>)
    ensures err.None? <==> (c.code == "") != (c.id == "")
  {
    if c.code == "" && c.id == "" then Some("code or script id required")
    else if c.code != "" && c.id != "" then Some("only code or id allowed")
    else None
  }

  /** The code with every newline removed. */
  function StripNewlines(code: string): (r: string)
    ensures '\n' !in r
    ensures '\n' !in code ==> r == code
  {
    ReplaceChar(code, '\n', "")
  }

  /**
   * `makeScript` as written: the options are validated while they are read,
   * and the newlines are stripped afterwards.
   */
  function MakeAsWritten(c: Config): (r: Result<Config>)
    ensures r.Ok? <==> Validate(c).None?
    ensures r.Ok? ==> r.value == Config(StripNewlines(c.code), c.id)
  {
    match Validate(c)
    case Some(e) => Err(e)
    case None => Ok(Config(StripNewlines(c.code), c.id))
  }

  /**
   * `makeScript` with the check applied to the code that is kept: a loaded
   * script has exactly one of code and id, and its code has no newline.
   */
  function Make(c: Config): (r: Result<Config>)
    ensures r.Ok? <==> (StripNewlines(c.code) == "") != (c.id == "")
    ensures r.Ok? ==> r.value == Config(StripNewlines(c.code), c.id)
    ensures r.Ok? ==> (r.value.code == "") != (r.value.id == "") && '\n' !in r.value.code
  {
    var stripped := Config(StripNewlines(c.code), c.id);
    match Validate(stripped)
    case Some(e) => Err(e)
    case None => Ok(stripped)
  }

  /** The parameters of the Ingest `script` step. */
  function IngestParams(s: Config): (p: Params)
    ensures "lang" in p && p["lang"] == Str("painless")
    ensures OptionalStr(p, "source", s.code) && OptionalStr(p, "id", s.id)
    ensures p.Keys <= {"lang", "source", "id"}
  {
    var p := map["lang" := Str("painless")];
    var p := if s.code != "" then p["source" := Str(s.code)] else p;
    if s.id != "" then p["id" := Str(s.id)] else p
  }

  /** `CompileIngest`: one `script` step. */
  function CompileIngest(s: Config): (ps: seq<Ingest.Step>)
    ensures |ps| == 1 && ps[0] == Ingest.MakeProcessor("script", IngestParams(s))
  {
    Ingest.MakeSingleProcessor("script", IngestParams(s))
  }

  /**
   * As written, code made of newlines only passes the check and is then
   * stripped to nothing: the step runs neither code nor a stored script.
   */
  lemma AsWrittenAcceptsBlankCode()
    ensures MakeAsWritten(Config("\n", "")).Ok?
    ensures CompileIngest(MakeAsWritten(Config("\n", "")).value)[0]["script"] == map["lang" := Str("painless")]
    ensures Make(Config("\n", "")).Err?
  {
    assert StripNewlines("\n") == "" by {
      assert ReplaceChar("\n", '\n', "") == "" + ReplaceChar("", '\n', "");
    }
  }

  /**
   * The two loaders disagree exactly on code that is not empty but is made
   * of newlines only: without an id, the one as written accepts it and the
   * corrected one rejects it; with an id, the other way round. Where both
   * accept, they load the same script.
   */
  lemma MakeAgreesWithAsWritten(c: Config)
    ensures MakeAsWritten(c).Ok? && Make(c).Ok? ==> MakeAsWritten(c) == Make(c)
    ensures MakeAsWritten(c).Ok? != Make(c).Ok? <==> c.code != "" && StripNewlines(c.code) == ""
  {
    if c.code == "" {
      assert StripNewlines(c.code) == "";
    }
  }

  /** The error of the Logstash target. */
  const LogstashError: string := "script not supported on 'logstash' target"
}
