/** The `grok` processor (generator/grok/grok.go): pattern-based field extraction. */
module GrokProc {
  import opened Wrappers
  import opened Values
  import opened Records
  import opened LsAst
  import opened GenLs
  import Ingest

  /** The options as read from the configuration. */
  datatype Config = Config(
    field: string, pattern: string, patterns: seq<string>,
    definitions: map<string, string>, ignoreMissing: bool, dropField: bool)

  /** The loaded processor: a single `pattern` is folded into `patterns`. */
  datatype Grok = Grok(
    field: string, patterns: seq<string>, definitions: map<string, string>,
    ignoreMissing: bool, dropField: bool)

  /** `config.Validate`. */
  function Validate(c: Config): (err: Option<string>)
    ensures err.None? <==> c.field != "" && !(c.pattern != "" && |c.patterns| > 0)
  {
    if c.field == "" then Some("field missing")
    else if c.pattern != "" && |c.patterns| > 0 then Some("set `pattern` or `patterns` setting only")
    else None
  }

  /** `makeGrok`. */
  function Make(c: Config): (r: Result<Grok>)
    ensures c.field == "" ==> r == Err(MissingField("field"))
    ensures c.field != "" && Validate(c).Some? ==> r == Err(Validate(c).value)
    ensures r.Ok? <==> Validate(c).None?
    ensures r.Ok? && c.pattern != "" ==> r.value.patterns == [c.pattern]
    ensures r.Ok? && c.pattern == "" ==> r.value.patterns == c.patterns
    ensures r.Ok? ==> (r.value.field == c.field && r.value.definitions == c.definitions
                       && r.value.ignoreMissing == c.ignoreMissing && r.value.dropField == c.dropField)
  {
    if c.field == "" then Err(MissingField("field"))
    else match Validate(c)
      case Some(e) => Err(e)
      case None =>
        var patterns := if c.pattern != "" then [c.pattern] else c.patterns;
        Ok(Grok(c.field, patterns, c.definitions, c.ignoreMissing, c.dropField))
  }

  /** The parameters of the Ingest `grok` step. */
  function IngestParams(g: Grok): (p: Params)
    ensures "field" in p && p["field"] == Str(g.field)
    ensures "patterns" in p && p["patterns"] == StrList(g.patterns)
    ensures ("pattern_definitions" in p <==> |g.definitions| > 0)
    ensures |g.definitions| > 0 ==> p["pattern_definitions"] == StrMap(g.definitions)
    ensures Flag(p, "ignore_missing", g.ignoreMissing)
    ensures p.Keys <= {"field", "patterns", "pattern_definitions", "ignore_missing"}
  {
    var p := map["field" := Str(g.field), "patterns" := StrList(g.patterns)];
    var p := if |g.definitions| > 0 then p["pattern_definitions" := StrMap(g.definitions)] else p;
    if g.ignoreMissing then p["ignore_missing" := Bool(true)] else p
  }

  /** `CompileIngest`. */
  function CompileIngest(g: Grok): (ps: seq<Ingest.Step>)
    ensures |ps| == if g.dropField then 2 else 1
    ensures ps[0] == Ingest.MakeProcessor("grok", IngestParams(g))
    ensures g.dropField ==> ps[1] == Ingest.RemoveField(g.field)
  {
    Ingest.WithDrop(Ingest.MakeSingleProcessor("grok", IngestParams(g)), g.dropField, g.field)
  }

  /** The parameters of the Logstash `grok` filter: the patterns matched against the normalized field. */
  function LogstashParams(g: Grok): (p: Params)
    ensures "match" in p && p["match"] == Obj(map[NormalizedField(g.field) := StrList(g.patterns)])
    ensures ("pattern_definitions" in p <==> |g.definitions| > 0)
    ensures |g.definitions| > 0 ==> p["pattern_definitions"] == StrMap(g.definitions)
    ensures ("remove_field" in p <==> g.dropField)
    ensures g.dropField ==> p["remove_field"] == StrList([NormalizedField(g.field)])
    ensures p.Keys <= {"match", "pattern_definitions", "remove_field"}
  {
    var p := map["match" := Obj(map[NormalizedField(g.field) := StrList(g.patterns)])];
    var p := if |g.definitions| > 0 then p["pattern_definitions" := StrMap(g.definitions)] else p;
    DropField(p, g.dropField, g.field)
  }

  /** The `de_dot` filter that follows every grok. */
  const DeDot: Statement := Filter("de_dot", map["nested" := Bool(true)])

  /**
   * `CompileLogstash`: the grok filter and `de_dot`, guarded by the field's
   * presence when missing fields are ignored; no failure tag.
   */
  function CompileLogstash(g: Grok, verbose: bool): (b: FilterBlock)
    ensures b.failureTags == []
    ensures |b.block| == (if g.ignoreMissing then 1 else 2) + (if verbose then 1 else 0)
    ensures !g.ignoreMissing ==> b.block[..2] == [Filter("grok", LogstashParams(g)), DeDot]
    ensures g.ignoreMissing ==>
      b.block[0] == Conditional([Case(NormalizedField(g.field), [Filter("grok", LogstashParams(g)), DeDot])], [])
    ensures verbose ==> b.block[|b.block| - 1] == MakePrintEventDebug("grok")
  {
    var blk := [Filter("grok", LogstashParams(g)), DeDot];
    var blk := if g.ignoreMissing then IgnoreMissing(g.field, blk) else blk;
    FilterBlock(MakeVerboseBlock(verbose, "grok", blk), [])
  }

  /** The compiled block is one the Logstash printer accepts. */
  lemma LogstashWellFormed(g: Grok, verbose: bool)
    ensures WellFormedBlock(CompileLogstash(g, verbose).block)
  {
    var params := LogstashParams(g);
    assert "" !in params;
    var core := [Filter("grok", params), DeDot];
    assert WellFormed(core[0]) && WellFormed(core[1]);
    if g.ignoreMissing {
      ConditionalWellFormed([Case(NormalizedField(g.field), core)], []);
      VerboseWellFormed(verbose, "grok", IgnoreMissing(g.field, core));
    } else {
      VerboseWellFormed(verbose, "grok", core);
    }
  }
}
