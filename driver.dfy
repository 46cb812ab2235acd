/**
 * The generator front end (generator/gen.go): a loaded pipeline of
 * processors with its description and id, compiled to an Ingest pipeline or
 * printed as a Logstash program.
 */
module Driver {
  import opened Wrappers
  import opened Values
  import opened LsAst
  import opened GenLs
  import Ingest
  import P = Processors
  import Reg = Registry
  import Gen = Generator
  import LsRender
  import LsFormat

  /** `Generator`: the pipeline id (empty for none), its description and its processors. */
  datatype Generator = Generator(id: string, description: string, processors: seq<P.Processor>)

  /**
   * `New`: an empty list of processor records is refused before anything is
   * loaded; otherwise every record is loaded in order and the first failure
   * is the error.
   */
  method New(reg: Reg.Registry, descr: string, configs: seq<Reg.Record>) returns (r: Result<Generator>)
    ensures configs == [] ==> r == Err("no processors")
    ensures r.Ok? <==> configs != [] && forall i :: 0 <= i < |configs| ==> Reg.LoadSpec(reg.processors, configs[i]).Ok?
    ensures r.Ok? ==>
      r.value.id == "" && r.value.description == descr && |r.value.processors| == |configs|
      && forall i :: 0 <= i < |configs| ==> Reg.LoadSpec(reg.processors, configs[i]) == Ok(r.value.processors[i])
    ensures r.Err? && configs != [] ==>
      exists k :: (0 <= k < |configs|
                   && (forall i :: 0 <= i < k ==> Reg.LoadSpec(reg.processors, configs[i]).Ok?)
                   && Reg.LoadSpec(reg.processors, configs[k]) == Err(r.error))
  {
    if |configs| == 0 {
      return Err("no processors");
    }
    var ps := reg.LoadAll(configs);
    Reg.LoadAllSpecProps(reg.processors, configs);
    if ps.Err? {
      return Err(ps.error);
    }
    r := Ok(Generator("", descr, ps.value));
  }

  /** The `on_failure` handler every compiled Ingest pipeline gets: the failure message in `error.message`. */
  function DefaultOnFailure(): (ps: seq<Ingest.Step>)
    ensures |ps| == 1 && ps[0].Keys == {"set"}
    ensures ps[0]["set"] == map["field" := Str("error.message"), "value" := Str("{{ _ingest.on_failure_message }}")]
  {
    Ingest.MakeSingleProcessor("set", map["field" := Str("error.message"), "value" := Str("{{ _ingest.on_failure_message }}")])
  }

  /**
   * `CompileIngest`: the description, the steps of every processor in order
   * and the default failure handler, or the error of the first processor
   * that cannot be compiled.
   */
  method CompileIngest(g: Generator) returns (r: Result<Ingest.Pipeline>)
    ensures r.Ok? <==> forall i :: 0 <= i < |g.processors| ==> P.CompileIngest(g.processors[i]).Ok?
    ensures r.Ok? ==> r.value == Ingest.Pipeline(g.description, P.ConcatSteps(g.processors), DefaultOnFailure())
    ensures r.Err? ==>
      exists k :: (0 <= k < |g.processors|
                   && (forall i :: 0 <= i < k ==> P.CompileIngest(g.processors[i]).Ok?)
                   && P.CompileIngest(g.processors[k]) == Err(r.error))
  {
    var processors := Gen.CompileIngestProcessors(g.processors);
    P.CompileIngestAllSpec(g.processors);
    if processors.Err? {
      return Err(processors.error);
    }
    r := Ok(Ingest.Pipeline(g.description, processors.value, DefaultOnFailure()));
  }

  /**
   * The Logstash program `MakeLogstash` prints for the compiled `block`: in
   * verbose mode the event is printed on entry (`init`) and on exit
   * (`emit`); the id, when there is one, becomes the pipeline guard.
   */
  function LogstashProgram(g: Generator, verbose: bool, block: Block): (p: Pipeline)
    ensures p.description == g.description && p.metaPipeline == g.id
    ensures !verbose ==> p.block == block
    ensures verbose ==>
      (|p.block| == |block| + 2 && p.block[1..|block| + 1] == block
       && p.block[0] == MakePrintEventDebug("init") && p.block[|block| + 1] == MakePrintEventDebug("emit"))
  {
    var blk := if verbose then [MakePrintEventDebug("init")] + block + [MakePrintEventDebug("emit")] else block;
    // an empty id leaves the pipeline without a guard, which is the empty id again
    Pipeline(g.id, g.description, blk)
  }

  /** The debug prints keep the program printable. */
  lemma LogstashProgramWellFormed(g: Generator, verbose: bool, block: Block)
    requires WellFormedBlock(block)
    ensures WellFormedBlock(LogstashProgram(g, verbose, block).block)
  {
    if verbose {
      var init, emit := MakePrintEventDebug("init"), MakePrintEventDebug("emit");
      assert WellFormed(init) && WellFormed(emit);
      WellFormedConcat([init], block);
      WellFormedConcat([init] + block, [emit]);
    }
  }

  /**
   * `MakeLogstash`: compiles the processors on `ctx` with the error reporter
   * as the top-level handler, then prints the program into a writer with
   * room for `capacity` characters. A compile error is returned before
   * anything is written; a write that does not fit is a short write.
   */
  method MakeLogstash(g: Generator, ctx: LogstashCtx, ko: LsRender.KeyOrder, capacity: nat)
    returns (written: string, r: Result<()>)
    requires LsRender.ValidOrder(ko)
    modifies ctx
    ensures var spec := P.CompileLsList(g.processors, Reporter, ctx.verbose, ctx.disableErrors, old(ctx.tagCount));
      (spec.Err? ==> written == "" && r == Err(spec.error))
      && (spec.Ok? ==>
            var text := LsRender.SerializeText(LogstashProgram(g, ctx.verbose, spec.value.0.block), ko);
            written == LsRender.Trunc(text, capacity)
            && (r.Ok? <==> |text| <= capacity)
            && (r.Err? ==> r.error == "short write"))
  {
    ghost var count0 := ctx.tagCount;
    var prog := Gen.CompileLogstashProcessors(ctx, Reporter, g.processors);
    if prog.Err? {
      return "", Err(prog.error);
    }
    P.ListWellFormed(g.processors, Reporter, ctx.verbose, ctx.disableErrors, count0);
    var blk := prog.value.block;
    if ctx.verbose {
      blk := [MakePrintEventDebug("init")] + blk + [MakePrintEventDebug("emit")];
    }
    var pipeline := Pipeline("", g.description, blk);
    if g.id != "" {
      pipeline := pipeline.(metaPipeline := g.id);
    }
    LogstashProgramWellFormed(g, ctx.verbose, prog.value.block);
    assert pipeline == LogstashProgram(g, ctx.verbose, prog.value.block);
    var ok;
    written, ok := LsFormat.Serialize(pipeline, ko, capacity);
    r := if ok then Ok(()) else Err("short write");
  }
}
