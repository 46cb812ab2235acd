/** The `ruby` processor (generator/ruby/ruby.go): inline Ruby code; Logstash only. */
module RubyProc {
  import opened Values
  import opened Strs
  import opened LsAst
  import opened GenLs

  datatype Config = Config(code: string)

  /** The error of the Ingest target. */
  const IngestError: string := "ruby not supported on 'ingest' target"

  /** The code on one line: every newline becomes `; `. */
  function OneLine(code: string): (r: string)
    ensures '\n' !in r
    ensures '\n' !in code ==> r == code
  {
    ReplaceChar(code, '\n', "; ")
  }

  /** `CompileLogstash`: one `ruby` filter whose only parameter is the code, on one line. */
  function CompileLogstash(r: Config, verbose: bool): (b: FilterBlock)
    ensures b.failureTags == []
    ensures |b.block| == if verbose then 2 else 1
    ensures b.block[0] == Filter("ruby", map["code" := Str(OneLine(r.code))])
    ensures verbose ==> b.block[1] == MakePrintEventDebug("ruby")
  {
    FilterBlock(MakeVerboseBlock(verbose, "ruby", [Filter("ruby", map["code" := Str(OneLine(r.code))])]), [])
  }
}
