/**
 * The compile loops of the generator: `CompileIngestProcessors`
 * (generator/gen.go) and `CompileLogstashProcessors` (generator/ls.go) as the
 * source writes them, over the shared `LogstashCtx`, each proved to compute
 * the pure description in `Processors`.
 */
module Generator {
  import opened Wrappers
  import opened Strs
  import opened LsAst
  import opened GenLs
  import Ingest
  import P = Processors
  import DateProc
  import SplitProc
  import GrokProc
  import KvProc
  import ConvertProc
  import UserAgentProc
  import GsubProc
  import JsonProc
  import GeoipProc
  import RenameProc
  import RemoveProc
  import ScriptProc
  import RubyProc

  /** A method result that agrees with a compile function: the same error, or the same unit and counter. */
  predicate Agrees(r: Result<FilterBlock>, count: nat, spec: Result<(FilterBlock, nat)>)
  {
    (spec.Ok? ==> r == Ok(spec.value.0) && count == spec.value.1)
    && (spec.Err? ==> r == Err(spec.error))
  }

  // ----- Ingest -----

  /** `CompileIngest` of one processor; `select` runs the list loop on its Ingest list. */
  method CompileIngest(p: P.Processor) returns (r: Result<seq<Ingest.Step>>)
    ensures r == P.CompileIngest(p)
    decreases p, 0
  {
    if p.Select? {
      r := CompileIngestProcessors(p.ingest);
    } else {
      r := P.CompileIngest(p);
    }
  }

  /** `CompileIngestProcessors`: appends the steps of each processor, stopping at the first error. */
  method CompileIngestProcessors(input: seq<P.Processor>) returns (r: Result<seq<Ingest.Step>>)
    ensures r == P.CompileIngestAll(input)
    decreases input, 1
  {
    if |input| == 0 {
      return Ok([]);
    }
    var processors: seq<Ingest.Step> := [];
    for i := 0 to |input|
      invariant P.CompileIngestAll(input[..i]) == Ok(processors)
    {
      var ps := CompileIngest(input[i]);
      assert input[..i + 1][..i] == input[..i];
      if ps.Err? {
        IngestPrefixErr(input, i + 1);
        return Err(ps.error);
      }
      processors := processors + ps.value;
    }
    assert input[..|input|] == input;
    r := Ok(processors);
  }

  /** Once a prefix fails to compile for Ingest, the whole list fails with the same error. */
  lemma {:induction false} IngestPrefixErr(ps: seq<P.Processor>, j: nat)
    requires j <= |ps|
    requires P.CompileIngestAll(ps[..j]).Err?
    ensures P.CompileIngestAll(ps) == P.CompileIngestAll(ps[..j])
    decreases |ps| - j
  {
    if j < |ps| {
      assert ps[..j + 1][..j] == ps[..j];
      IngestPrefixErr(ps, j + 1);
    } else {
      assert ps[..j] == ps;
    }
  }

  // ----- Logstash -----

  /**
   * `CompileLogstash` of one processor on the shared context: `date` and
   * `user_agent` may mint a tag, `select` mints its own tag and then runs the
   * list loop on its Logstash list.
   */
  method CompileLogstash(p: P.Processor, ctx: LogstashCtx) returns (r: Result<FilterBlock>)
    modifies ctx
    ensures Agrees(r, ctx.tagCount, P.CompileLs(p, ctx.verbose, ctx.disableErrors, old(ctx.tagCount)))
    decreases p, 0
  {
    match p
    case Date(d) =>
      var b := DateProc.CompileLogstash(d, ctx);
      r := Ok(b);
    case UserAgent(u) =>
      var b := UserAgentProc.CompileLogstash(u, ctx);
      r := Ok(b);
    case Select(_, logstash) =>
      var tag := ctx.CreateTag("_failure_select");
      r := CompileLogstashProcessors(ctx, SelectTagger(tag), logstash);
    case _ =>
      r := CompileUntagged(p, ctx);
  }

  /** The kinds that neither mint tags nor hold other processors. */
  predicate Untagged(p: P.Processor)
  {
    !p.Date? && !p.UserAgent? && !p.Select?
  }

  /** `CompileLogstash` of the kinds that leave the tag counter alone. */
  method CompileUntagged(p: P.Processor, ctx: LogstashCtx) returns (r: Result<FilterBlock>)
    requires Untagged(p)
    ensures Agrees(r, ctx.tagCount, P.CompileLs(p, ctx.verbose, ctx.disableErrors, ctx.tagCount))
  {
    match p
    case Split(s) => r := Ok(SplitProc.CompileLogstash(s));
    case Grok(g) => r := Ok(GrokProc.CompileLogstash(g, ctx.verbose));
    case Geoip(g) => r := Ok(GeoipProc.CompileLogstash(g));
    case Rename(n) => r := Ok(RenameProc.CompileLogstash(n));
    case Remove(n) => r := Ok(RemoveProc.CompileLogstash(n, ctx.verbose));
    case Ruby(c) => r := Ok(RubyProc.CompileLogstash(c, ctx.verbose));
    case Kv(_) => r := CompileRejected(p, ctx);
    case Convert(_) => r := CompileRejected(p, ctx);
    case Gsub(_) => r := CompileRejected(p, ctx);
    case Json(_) => r := CompileRejected(p, ctx);
    case Script(_) => r := CompileRejected(p, ctx);
  }

  /** The kinds that have no Logstash translation. */
  predicate Rejected(p: P.Processor)
  {
    p.Kv? || p.Convert? || p.Gsub? || p.Json? || p.Script?
  }

  /** `CompileLogstash` of a kind without a Logstash translation: its own error. */
  method CompileRejected(p: P.Processor, ctx: LogstashCtx) returns (r: Result<FilterBlock>)
    requires Rejected(p)
    ensures Agrees(r, ctx.tagCount, P.CompileLs(p, ctx.verbose, ctx.disableErrors, ctx.tagCount))
  {
    match p
    case Kv(_) => r := Err(KvProc.LogstashError);
    case Convert(_) => r := Err(ConvertProc.LogstashError);
    case Gsub(_) => r := Err(GsubProc.LogstashError);
    case Json(_) => r := Err(JsonProc.LogstashError);
    case Script(_) => r := Err(ScriptProc.LogstashError);
  }

  /** Keeps the non-empty tags, in order. */
  method FilterEmptyTags(tags: seq<string>) returns (tmp: seq<string>)
    ensures tmp == NonEmptyTags(tags)
  {
    tmp := [];
    for i := 0 to |tags|
      invariant tmp == NonEmptyTags(tags[..i])
    {
      assert tags[..i + 1][..i] == tags[..i];
      if tags[i] != "" {
        tmp := tmp + [tags[i]];
      }
    }
    assert tags[..|tags|] == tags;
  }

  /**
   * `CompileLogstashProcessors`: compiles every unit in order (stopping at
   * the first error), builds a guard per unit that can fail unless errors are
   * disabled, and links units and guards from the last unit to the first.
   */
  method CompileLogstashProcessors(ctx: LogstashCtx, onError: ErrorPolicy, input: seq<P.Processor>)
    returns (r: Result<FilterBlock>)
    modifies ctx
    ensures Agrees(r, ctx.tagCount, P.CompileLsList(input, onError, ctx.verbose, ctx.disableErrors, old(ctx.tagCount)))
    decreases input, 3
  {
    if |input| == 0 {
      return Ok(FilterBlock([], []));
    }
    var blks := CompileBlocks(ctx, input);
    if blks.Err? {
      return Err(blks.error);
    }
    var conds, failTags := MakeConds(blks.value, P.Names(input), onError, ctx.disableErrors);
    var active := LinkBlocks(blks.value, conds);
    r := Ok(FilterBlock(active, failTags));
  }

  /** The first loop of `CompileLogstashProcessors`: one unit per processor, empty tags dropped. */
  method CompileBlocks(ctx: LogstashCtx, input: seq<P.Processor>) returns (r: Result<array<FilterBlock>>)
    modifies ctx
    ensures var spec := P.CompileUnits(input, ctx.verbose, ctx.disableErrors, old(ctx.tagCount));
      (spec.Ok? ==> r.Ok? && fresh(r.value) && r.value[..] == spec.value.0 && ctx.tagCount == spec.value.1)
      && (spec.Err? ==> r == Err(spec.error))
    decreases input, 2
  {
    var count0 := ctx.tagCount;
    var blks := new FilterBlock[|input|](_ => FilterBlock([], []));
    for i := 0 to |input|
      invariant P.CompileUnits(input[..i], ctx.verbose, ctx.disableErrors, count0) == Ok((blks[..i], ctx.tagCount))
    {
      var failure := CompileInto(ctx, input, i, blks, count0);
      if failure.Some? {
        return Err(failure.value);
      }
    }
    assert input[..|input|] == input;
    assert blks[..blks.Length] == blks[..];
    r := Ok(blks);
  }

  /** The body of the first loop: unit `i` is compiled into `blks[i]`, or its error ends the loop. */
  method CompileInto(ctx: LogstashCtx, input: seq<P.Processor>, i: nat, blks: array<FilterBlock>, ghost count0: nat)
    returns (failure: Option<string>)
    requires i < |input| == blks.Length
    requires P.CompileUnits(input[..i], ctx.verbose, ctx.disableErrors, count0) == Ok((blks[..i], ctx.tagCount))
    modifies ctx, blks
    ensures failure.None? ==>
      P.CompileUnits(input[..i + 1], ctx.verbose, ctx.disableErrors, count0) == Ok((blks[..i + 1], ctx.tagCount))
    ensures failure.Some? ==> P.CompileUnits(input, ctx.verbose, ctx.disableErrors, count0) == Err(failure.value)
    decreases input, 1
  {
    ghost var before := ctx.tagCount;
    ghost var prev := blks[..i];
    var blk := CompileUnit(ctx, input[i]);
    UnitsStep(input, i, ctx.verbose, ctx.disableErrors, count0, prev, before);
    if blk.Err? {
      return Some(blk.error);
    }
    blks[i] := blk.value;
    assert blks[..i + 1] == prev + [blk.value];
    failure := None;
  }

  /** The second loop: the failure handler of each unit, and the tags the handlers set. */
  method MakeConds(blks: array<FilterBlock>, names: seq<string>, onError: ErrorPolicy, disableErrors: bool)
    returns (conds: array<Statement>, failTags: seq<string>)
    requires |names| == blks.Length
    ensures fresh(conds) && conds.Length == blks.Length
    ensures forall k :: 0 <= k < conds.Length ==> conds[k].Conditional?
    ensures conds[..] == Handlers(blks[..], names, onError, disableErrors)
    ensures failTags == HandlerTags(blks[..], names, onError, disableErrors)
  {
    conds := new Statement[blks.Length](_ => Conditional([], []));
    failTags := [];
    var units := blks[..];
    if disableErrors {
      DisabledHandlers(units, names, onError);
      assert conds[..] == seq(|units|, k => Conditional([], []));
      return;
    }
    failTags := FillGuards(blks, names, onError, conds);
    HandlersConditional(units, names, onError, false);
  }

  /** The loop of the second step: a guard for each unit that has failure tags. */
  method FillGuards(blks: array<FilterBlock>, names: seq<string>, onError: ErrorPolicy, conds: array<Statement>)
    returns (failTags: seq<string>)
    requires |names| == blks.Length == conds.Length
    modifies conds
    ensures conds[..] == Handlers(blks[..], names, onError, false)
    ensures failTags == HandlerTags(blks[..], names, onError, false)
  {
    failTags := [];
    var units := blks[..];
    for i := 0 to blks.Length
      invariant conds[..i] == Handlers(units[..i], names[..i], onError, false)
      invariant failTags == HandlerTags(units[..i], names[..i], onError, false)
    {
      NextHandlerTags(units, names, onError, i);
      var guarded, cond, tags := GuardUnit(units[i], names[i], onError);
      if guarded {
        failTags := failTags + tags;
      }
      ghost var before := conds[..];
      // an unguarded unit keeps the conditional without arms
      conds[i] := cond;
      GuardStep(before, conds[..], units, names, onError, i);
    }
    TakeAll(units);
    TakeAll(names);
  }

  /** Storing the handler of unit `i` extends the prefix of handlers by one. */
  lemma GuardStep(cs0: seq<Statement>, cs1: seq<Statement>, units: seq<FilterBlock>, names: seq<string>,
                  onError: ErrorPolicy, i: nat)
    requires |names| == |units| == |cs0| && i < |units|
    requires cs0[..i] == Handlers(units[..i], names[..i], onError, false)
    requires cs1 == cs0[i := FailureHandler(units[i], names[i], onError, false)]
    ensures cs1[..i + 1] == Handlers(units[..i + 1], names[..i + 1], onError, false)
  {
    assert cs1[..i + 1] == cs0[..i] + [FailureHandler(units[i], names[i], onError, false)];
  }

  /**
   * The body of the guard loop for one unit: whether it can fail and, if so,
   * its one-arm conditional (clear the unit's tags, then run the error
   * handler) and the tags that handler sets.
   */
  method GuardUnit(b: FilterBlock, name: string, onError: ErrorPolicy) returns (guarded: bool, cond: Statement, tags: seq<string>)
    ensures guarded <==> b.failureTags != []
    ensures cond == FailureHandler(b, name, onError, false)
    ensures guarded ==> tags == OnError(onError, name, b.failureTags).failureTags
  {
    var failCond := FailTagsCondition(b.failureTags);
    guarded := failCond != "";
    cond := Conditional([], []);
    tags := [];
    if guarded {
      var errBlk := OnError(onError, name, b.failureTags);
      tags := errBlk.failureTags;
      var onFail := [RemoveTagFilter(b.failureTags)] + errBlk.block;
      cond := Conditional([Case(failCond, onFail)], []);
    }
  }

  /** With errors disabled, every handler is a conditional without arms and sets no tags. */
  lemma DisabledHandlers(units: seq<FilterBlock>, names: seq<string>, onError: ErrorPolicy)
    requires |names| == |units|
    ensures Handlers(units, names, onError, true) == seq(|units|, k => Conditional([], []))
    ensures HandlerTags(units, names, onError, true) == []
  {
    DisabledErrors(units, names, onError);
  }

  lemma HandlersConditional(units: seq<FilterBlock>, names: seq<string>, onError: ErrorPolicy, disableErrors: bool)
    requires |names| == |units|
    ensures forall k :: 0 <= k < |units| ==> Handlers(units, names, onError, disableErrors)[k].Conditional?
  {
  }

  /** One more unit adds the tags of its handler when it is guarded. */
  lemma NextHandlerTags(units: seq<FilterBlock>, names: seq<string>, onError: ErrorPolicy, i: nat)
    requires |names| == |units| && i < |units|
    ensures HandlerTags(units[..i + 1], names[..i + 1], onError, false)
      == HandlerTags(units[..i], names[..i], onError, false)
         + (if units[i].failureTags != [] then OnError(onError, names[i], units[i].failureTags).failureTags else [])
  {
    assert units[..i + 1][..i] == units[..i] && names[..i + 1][..i] == names[..i];
    var c := FailureHandler(units[i], names[i], onError, false);
    assert Guarded(c) <==> units[i].failureTags != [];
  }

  /** The third loop: links units and handlers bottom-up. */
  method LinkBlocks(blks: array<FilterBlock>, conds: array<Statement>) returns (active: Block)
    requires conds.Length == blks.Length
    requires forall k :: 0 <= k < conds.Length ==> conds[k].Conditional?
    ensures active == Link(blks[..], conds[..])
  {
    active := [];
    var i := blks.Length;
    while i > 0
      invariant 0 <= i <= blks.Length
      invariant active == Link(blks[i..], conds[i..])
    {
      i := i - 1;
      assert blks[i..][1..] == blks[i + 1..] && conds[i..][1..] == conds[i + 1..];
      if |conds[i].cases| == 0 {
        active := blks[i].block + active;
      } else {
        var cond := conds[i].(elseBlock := active);
        active := blks[i].block + [cond];
      }
    }
    assert blks[0..] == blks[..] && conds[0..] == conds[..];
  }

  /** A processor's unit with its empty failure tags dropped. */
  method CompileUnit(ctx: LogstashCtx, p: P.Processor) returns (r: Result<FilterBlock>)
    modifies ctx
    ensures Agrees(r, ctx.tagCount, P.CompileUnit(p, ctx.verbose, ctx.disableErrors, old(ctx.tagCount)))
    decreases p, 1
  {
    var sub := CompileLogstash(p, ctx);
    if sub.Err? {
      return sub;
    }
    var blk := sub.value;
    // filter empty tags
    if |blk.failureTags| > 0 {
      var tmp := FilterEmptyTags(blk.failureTags);
      blk := blk.(failureTags := tmp);
    }
    r := Ok(blk);
  }

  /** One more processor: its unit with the empty tags dropped, or its error, which is then the error of the whole list. */
  lemma UnitsStep(ps: seq<P.Processor>, i: nat, verbose: bool, disable: bool, count0: nat,
                  prev: seq<FilterBlock>, count: nat)
    requires i < |ps|
    requires P.CompileUnits(ps[..i], verbose, disable, count0) == Ok((prev, count))
    ensures var unit := P.CompileUnit(ps[i], verbose, disable, count);
      (unit.Err? ==> P.CompileUnits(ps, verbose, disable, count0) == Err(unit.error))
      && (unit.Ok? ==> P.CompileUnits(ps[..i + 1], verbose, disable, count0) == Ok((prev + [unit.value.0], unit.value.1)))
  {
    assert ps[..i + 1][..i] == ps[..i];
    if P.CompileUnit(ps[i], verbose, disable, count).Err? {
      UnitsPrefixErr(ps, i + 1, verbose, disable, count0);
    }
  }

  /** Once a prefix fails to compile for Logstash, the whole list fails with the same error. */
  lemma {:induction false} UnitsPrefixErr(ps: seq<P.Processor>, j: nat, verbose: bool, disable: bool, count: nat)
    requires j <= |ps|
    requires P.CompileUnits(ps[..j], verbose, disable, count).Err?
    ensures P.CompileUnits(ps, verbose, disable, count) == P.CompileUnits(ps[..j], verbose, disable, count)
    decreases |ps| - j
  {
    if j < |ps| {
      assert ps[..j + 1][..j] == ps[..j];
      UnitsPrefixErr(ps, j + 1, verbose, disable, count);
    } else {
      assert ps[..j] == ps;
    }
  }
}
