/**
 * The loaded processors and what the two targets make of them: the tagged
 * union behind the `generator.Processor` interface, with the `select`
 * processor (generator/sel/select.go) holding one list per target, and the
 * pure description of compiling a list for Ingest (generator/gen.go) and for
 * Logstash (generator/ls.go), threading the tag counter through.
 */
module Processors {
  import opened Wrappers
  import opened LsAst
  import opened GenLs
  import Ingest
  import DateProc
  import SplitProc
  import GrokProc
  import KvProc
  import ConvertProc
  import UserAgentProc
  import GsubProc
  import JsonProc
  import GeoipProc
  import RenameProc
  import RemoveProc
  import ScriptProc
  import RubyProc
  import Threading

  /** A loaded processor. */
  datatype Processor =
    | Date(date: DateProc.Date)
    | Split(split: SplitProc.Config)
    | Grok(grok: GrokProc.Grok)
    | Kv(kv: KvProc.Kv)
    | Convert(convert: ConvertProc.Convert)
    | UserAgent(useragent: UserAgentProc.Config)
    | Gsub(gsub: GsubProc.Config)
    | Json(json: JsonProc.Config)
    | Geoip(geoip: GeoipProc.Config)
    | Rename(rename: RenameProc.Rename)
    | Remove(remove: RemoveProc.Config)
    | Script(script: ScriptProc.Config)
    | Ruby(ruby: RubyProc.Config)
    | Select(ingest: seq<Processor>, logstash: seq<Processor>)

  /** `Name`: the name error reports use. */
  function Name(p: Processor): string
  {
    match p
    case Date(_) => "date"
    case Split(_) => "split"
    case Grok(_) => "grok"
    case Kv(_) => "kv"
    case Convert(_) => "convert"
    case UserAgent(_) => "useragent"
    case Gsub(_) => GsubProc.Name
    case Json(_) => "json"
    case Geoip(_) => "geoip"
    case Rename(_) => "rename"
    case Remove(_) => "remove"
    case Script(_) => "script"
    case Ruby(_) => "ruby"
    case Select(_, _) => "select"
  }

  function Names(ps: seq<Processor>): (ns: seq<string>)
    ensures |ns| == |ps| && forall i :: 0 <= i < |ps| ==> ns[i] == Name(ps[i])
  {
    seq(|ps|, i requires 0 <= i < |ps| => Name(ps[i]))
  }

  // ----- Ingest -----

  /** `CompileIngest` of each kind; `select` compiles its Ingest list only. */
  function CompileIngest(p: Processor): (r: Result<seq<Ingest.Step>>)
    ensures p.Ruby? ==> r == Err(RubyProc.IngestError)
    ensures p.Select? ==> r == CompileIngestAll(p.ingest)
    decreases p, 1
  {
    match p
    case Date(d) => Ok(DateProc.CompileIngest(d))
    case Split(s) => Ok(SplitProc.CompileIngest(s))
    case Grok(g) => Ok(GrokProc.CompileIngest(g))
    case Kv(k) => KvProc.CompileIngest(k)
    case Convert(c) => Ok(ConvertProc.CompileIngest(c))
    case UserAgent(u) => Ok(UserAgentProc.CompileIngest(u))
    case Gsub(g) => Ok(GsubProc.CompileIngest(g))
    case Json(j) => Ok(JsonProc.CompileIngest(j))
    case Geoip(g) => Ok(GeoipProc.CompileIngest(g))
    case Rename(r) => Ok(RenameProc.CompileIngest(r))
    case Remove(r) => Ok(RemoveProc.CompileIngest(r))
    case Script(s) => Ok(ScriptProc.CompileIngest(s))
    case Ruby(_) => Err(RubyProc.IngestError)
    case Select(ingest, _) => CompileIngestAll(ingest)
  }

  /** `CompileIngestProcessors`: the steps of the processors in order, or the first error. */
  function CompileIngestAll(ps: seq<Processor>): Result<seq<Ingest.Step>>
    decreases ps, 0
  {
    if ps == [] then Ok([])
    else
      var rest :- CompileIngestAll(ps[..|ps| - 1]);
      var steps :- CompileIngest(ps[|ps| - 1]);
      Ok(rest + steps)
  }

  /** The steps of processors that all compile: their concatenation. */
  function ConcatSteps(ps: seq<Processor>): seq<Ingest.Step>
    requires forall i :: 0 <= i < |ps| ==> CompileIngest(ps[i]).Ok?
  {
    if ps == [] then [] else ConcatSteps(ps[..|ps| - 1]) + CompileIngest(ps[|ps| - 1]).value
  }

  /**
   * Compiling a list for Ingest succeeds exactly when every processor does,
   * and then gives their steps in order; otherwise it gives the error of the
   * first processor that fails.
   */
  lemma CompileIngestAllSpec(ps: seq<Processor>)
    ensures CompileIngestAll(ps).Ok? <==> forall i :: 0 <= i < |ps| ==> CompileIngest(ps[i]).Ok?
    ensures CompileIngestAll(ps).Ok? ==> CompileIngestAll(ps).value == ConcatSteps(ps)
    ensures CompileIngestAll(ps).Err? ==>
      exists k :: (0 <= k < |ps|
                   && (forall i :: 0 <= i < k ==> CompileIngest(ps[i]).Ok?)
                   && CompileIngest(ps[k]) == Err(CompileIngestAll(ps).error))
  {
    CompileIngestAllOk(ps);
    if CompileIngestAll(ps).Ok? {
      CompileIngestAllSteps(ps);
    } else {
      CompileIngestAllFirstError(ps);
    }
  }

  lemma CompileIngestAllOk(ps: seq<Processor>)
    ensures CompileIngestAll(ps).Ok? <==> forall i :: 0 <= i < |ps| ==> CompileIngest(ps[i]).Ok?
  {
    if CompileIngestAll(ps).Ok? {
      forall i | 0 <= i < |ps|
        ensures CompileIngest(ps[i]).Ok?
      {
        IngestAllOkAt(ps, i);
      }
    } else {
      var i := IngestAllErrAt(ps);
    }
  }

  /** In a list that compiles, every processor compiles. */
  lemma {:induction false} IngestAllOkAt(ps: seq<Processor>, i: nat)
    requires i < |ps| && CompileIngestAll(ps).Ok?
    ensures CompileIngest(ps[i]).Ok?
    decreases |ps|
  {
    var n := |ps| - 1;
    if i < n {
      var init := ps[..n];
      assert CompileIngestAll(init).Ok?;
      IngestAllOkAt(init, i);
      assert init[i] == ps[i];
    }
  }

  /** A list that fails holds a processor that fails. */
  lemma {:induction false} IngestAllErrAt(ps: seq<Processor>) returns (i: nat)
    requires CompileIngestAll(ps).Err?
    ensures i < |ps| && CompileIngest(ps[i]).Err?
    decreases |ps|
  {
    var n := |ps| - 1;
    var init := ps[..n];
    if CompileIngestAll(init).Err? {
      i := IngestAllErrAt(init);
      assert init[i] == ps[i];
    } else {
      i := n;
    }
  }

  lemma {:induction false} CompileIngestAllSteps(ps: seq<Processor>)
    requires forall i :: 0 <= i < |ps| ==> CompileIngest(ps[i]).Ok?
    ensures CompileIngestAll(ps) == Ok(ConcatSteps(ps))
    decreases |ps|
  {
    if ps != [] {
      var n := |ps| - 1;
      var init := ps[..n];
      assert forall i :: 0 <= i < n ==> init[i] == ps[i];
      CompileIngestAllSteps(init);
    }
  }

  lemma {:induction false} CompileIngestAllFirstError(ps: seq<Processor>)
    requires CompileIngestAll(ps).Err?
    ensures exists k :: (0 <= k < |ps|
                         && (forall i :: 0 <= i < k ==> CompileIngest(ps[i]).Ok?)
                         && CompileIngest(ps[k]) == Err(CompileIngestAll(ps).error))
    decreases |ps|
  {
    var n := |ps| - 1;
    var init := ps[..n];
    assert forall i :: 0 <= i < n ==> init[i] == ps[i];
    if CompileIngestAll(init).Err? {
      CompileIngestAllFirstError(init);
    } else {
      CompileIngestAllOk(init);
      assert CompileIngest(ps[n]) == Err(CompileIngestAll(ps).error);
    }
  }

  // ----- Logstash -----

  /**
   * `CompileLogstash` of each kind from tag counter value `count`: the unit
   * and the counter after it. Kv, convert, gsub, json and script have no
   * Logstash filter and fail; date and useragent mint at most one tag; the
   * rest mint none. `select` mints its tag first, then compiles its
   * Logstash list with a handler that sets that tag.
   */
  function CompileLs(p: Processor, verbose: bool, disable: bool, count: nat): (r: Result<(FilterBlock, nat)>)
    ensures r.Ok? ==> r.value.1 >= count
    ensures (r.Err? && !p.Select?) <==> (p.Kv? || p.Convert? || p.Gsub? || p.Json? || p.Script?)
    ensures r.Ok? && !p.Date? && !p.UserAgent? && !p.Select? ==> r.value.1 == count && r.value.0.failureTags == []
    ensures r.Ok? && (p.Date? || p.UserAgent?) ==> |r.value.0.failureTags| == 1 && r.value.1 <= count + 1
    ensures r.Ok? && p.Select? ==> r.value.1 >= count + 1
    decreases p, 2
  {
    match p
    case Date(d) => Ok(DateProc.Logstash(d, verbose, count))
    case Split(s) => Ok((SplitProc.CompileLogstash(s), count))
    case Grok(g) => Ok((GrokProc.CompileLogstash(g, verbose), count))
    case Kv(_) => Err(KvProc.LogstashError)
    case Convert(_) => Err(ConvertProc.LogstashError)
    case UserAgent(u) => Ok(UserAgentProc.Logstash(u, verbose, count))
    case Gsub(_) => Err(GsubProc.LogstashError)
    case Json(_) => Err(JsonProc.LogstashError)
    case Geoip(g) => Ok((GeoipProc.CompileLogstash(g), count))
    case Rename(r) => Ok((RenameProc.CompileLogstash(r), count))
    case Remove(r) => Ok((RemoveProc.CompileLogstash(r, verbose), count))
    case Script(_) => Err(ScriptProc.LogstashError)
    case Ruby(r) => Ok((RubyProc.CompileLogstash(r, verbose), count))
    case Select(_, logstash) =>
      CompileLsList(logstash, SelectTagger(MintTag("_failure_select", count + 1)), verbose, disable, count + 1)
  }

  /** The units of a list, each with its empty tags dropped, and the counter after them. */
  function CompileUnits(ps: seq<Processor>, verbose: bool, disable: bool, count: nat): (r: Result<(seq<FilterBlock>, nat)>)
    ensures r.Ok? ==> |r.value.0| == |ps| && r.value.1 >= count
    decreases ps, 1
  {
    if ps == [] then Ok(([], count))
    else
      var init :- CompileUnits(ps[..|ps| - 1], verbose, disable, count);
      var unit :- CompileUnit(ps[|ps| - 1], verbose, disable, init.1);
      Ok((init.0 + [unit.0], unit.1))
  }

  /** A processor's unit with its empty tags dropped, and the counter after it. */
  function CompileUnit(p: Processor, verbose: bool, disable: bool, count: nat): (r: Result<(FilterBlock, nat)>)
    ensures r.Ok? ==> r.value.1 >= count && "" !in r.value.0.failureTags
    decreases p, 3
  {
    var unit :- CompileLs(p, verbose, disable, count);
    Ok((unit.0.(failureTags := NonEmptyTags(unit.0.failureTags)), unit.1))
  }

  /** The whole result of a list of units with their error handlers. */
  function Assemble(blks: seq<FilterBlock>, names: seq<string>, policy: ErrorPolicy, disable: bool): FilterBlock
    requires |names| == |blks|
  {
    FilterBlock(Link(blks, Handlers(blks, names, policy, disable)), HandlerTags(blks, names, policy, disable))
  }

  /** `CompileLogstashProcessors`: no units give an empty block; otherwise the linked units. */
  function CompileLsList(ps: seq<Processor>, policy: ErrorPolicy, verbose: bool, disable: bool, count: nat): (r: Result<(FilterBlock, nat)>)
    ensures ps == [] ==> r == Ok((FilterBlock([], []), count))
    ensures r.Ok? ==> r.value.1 >= count
    decreases ps, 2
  {
    if ps == [] then Ok((FilterBlock([], []), count))
    else
      var units :- CompileUnits(ps, verbose, disable, count);
      Ok((Assemble(units.0, Names(ps), policy, disable), units.1))
  }

  /** One step of `CompileUnits`: the units before the last processor, then the last one. */
  lemma UnitsLast(ps: seq<Processor>, verbose: bool, disable: bool, count: nat)
    requires ps != []
    ensures var before := CompileUnits(ps[..|ps| - 1], verbose, disable, count);
      (before.Err? ==> CompileUnits(ps, verbose, disable, count) == before)
      && (before.Ok? ==>
            var unit := CompileUnit(ps[|ps| - 1], verbose, disable, before.value.1);
            (unit.Err? ==> CompileUnits(ps, verbose, disable, count) == Err(unit.error))
            && (unit.Ok? ==> CompileUnits(ps, verbose, disable, count) == Ok((before.value.0 + [unit.value.0], unit.value.1))))
  {
  }

  /** `CompileUnit` as a step of a threaded run. */
  function UnitStep(verbose: bool, disable: bool): (f: (Processor, nat) -> Result<(FilterBlock, nat)>)
    ensures forall p, n :: f(p, n) == CompileUnit(p, verbose, disable, n)
  {
    (p, n) => CompileUnit(p, verbose, disable, n)
  }

  /** `CompileUnits` is the threaded run of `CompileUnit` over the list. */
  lemma {:induction false} UnitsRun(ps: seq<Processor>, verbose: bool, disable: bool, count: nat)
    ensures CompileUnits(ps, verbose, disable, count) == Threading.Run(UnitStep(verbose, disable), ps, count)
    decreases |ps|
  {
    if ps != [] {
      UnitsRun(ps[..|ps| - 1], verbose, disable, count);
      UnitsLast(ps, verbose, disable, count);
    }
  }

  /**
   * A list that compiles for Logstash compiled each of its processors in
   * turn: the unit at `k` is the one processor `k` compiles to from the
   * counter the processors before it leave.
   */
  lemma CompileUnitsEach(ps: seq<Processor>, k: nat, verbose: bool, disable: bool, count: nat)
    requires k < |ps|
    requires CompileUnits(ps, verbose, disable, count).Ok?
    ensures CompileUnits(ps[..k], verbose, disable, count).Ok?
    ensures CompileUnits(ps[..k + 1], verbose, disable, count).Ok?
    ensures CompileUnit(ps[k], verbose, disable, CompileUnits(ps[..k], verbose, disable, count).value.1)
      == Ok((CompileUnits(ps, verbose, disable, count).value.0[k], CompileUnits(ps[..k + 1], verbose, disable, count).value.1))
  {
    UnitsRun(ps, verbose, disable, count);
    UnitsRun(ps[..k], verbose, disable, count);
    UnitsRun(ps[..k + 1], verbose, disable, count);
    Threading.RunEach(UnitStep(verbose, disable), ps, k, count);
  }

  /**
   * A list that fails to compile for Logstash fails at its first processor
   * that does: the processors before `k` compile, processor `k` fails with
   * the list's error from the counter they leave, and the processors after
   * it play no part in the result.
   */
  lemma CompileUnitsFirstError(ps: seq<Processor>, verbose: bool, disable: bool, count: nat) returns (k: nat)
    requires CompileUnits(ps, verbose, disable, count).Err?
    ensures k < |ps| && CompileUnits(ps[..k], verbose, disable, count).Ok?
    ensures CompileUnit(ps[k], verbose, disable, CompileUnits(ps[..k], verbose, disable, count).value.1)
      == Err(CompileUnits(ps, verbose, disable, count).error)
    ensures CompileUnits(ps[..k + 1], verbose, disable, count) == CompileUnits(ps, verbose, disable, count)
  {
    UnitsRun(ps, verbose, disable, count);
    k := Threading.RunFirstError(UnitStep(verbose, disable), ps, count);
    UnitsRun(ps[..k], verbose, disable, count);
    UnitsRun(ps[..k + 1], verbose, disable, count);
  }

  /**
   * The Logstash list fails exactly when its units do, and then with the
   * error of its first failing processor.
   */
  lemma CompileLsListFirstError(ps: seq<Processor>, policy: ErrorPolicy, verbose: bool, disable: bool, count: nat) returns (k: nat)
    requires CompileLsList(ps, policy, verbose, disable, count).Err?
    ensures k < |ps| && CompileUnits(ps[..k], verbose, disable, count).Ok?
    ensures CompileUnit(ps[k], verbose, disable, CompileUnits(ps[..k], verbose, disable, count).value.1)
      == Err(CompileLsList(ps, policy, verbose, disable, count).error)
  {
    k := CompileUnitsFirstError(ps, verbose, disable, count);
  }

  /** A unit that compiles has a block the printer accepts. */
  lemma UnitWellFormed(p: Processor, verbose: bool, disable: bool, count: nat)
    requires CompileLs(p, verbose, disable, count).Ok?
    ensures WellFormedBlock(CompileLs(p, verbose, disable, count).value.0.block)
    decreases p, 2
  {
    match p
    case Date(d) =>
      var tag := if d.ignoreFailure then "" else MintTag("_failure_date", count + 1);
      DateWellFormed(d, tag, verbose);
    case UserAgent(u) =>
      var tag := if u.ignoreFailure then "" else MintTag("_failure_useragent", count + 1);
      UserAgentWellFormed(u, tag, verbose);
    case Select(_, logstash) =>
      ListWellFormed(logstash, SelectTagger(MintTag("_failure_select", count + 1)), verbose, disable, count + 1);
    case _ =>
      UntaggedWellFormed(p, verbose, disable, count);
  }

  /** The kinds that neither mint a tag nor hold other processors compile to blocks the printer accepts. */
  lemma UntaggedWellFormed(p: Processor, verbose: bool, disable: bool, count: nat)
    requires !p.Date? && !p.UserAgent? && !p.Select?
    requires CompileLs(p, verbose, disable, count).Ok?
    ensures WellFormedBlock(CompileLs(p, verbose, disable, count).value.0.block)
  {
    match p
    case Split(s) =>
    case Grok(g) => GrokProc.LogstashWellFormed(g, verbose);
    case Geoip(g) =>
    case Rename(r) =>
    case Remove(r) => RemoveWellFormed(r, verbose);
    case Ruby(r) => RubyWellFormed(r, verbose);
    case Kv(_) => assert false;
    case Convert(_) => assert false;
    case Gsub(_) => assert false;
    case Json(_) => assert false;
    case Script(_) => assert false;
  }

  lemma DateWellFormed(d: DateProc.Date, tag: string, verbose: bool)
    ensures WellFormedBlock(DateProc.LogstashBlock(d, tag, verbose).block)
  {
    VerboseWellFormed(verbose, "date", [Filter("date", DateProc.LogstashParams(d, tag))]);
  }

  lemma UserAgentWellFormed(u: UserAgentProc.Config, tag: string, verbose: bool)
    ensures WellFormedBlock(UserAgentProc.LogstashBlock(u, tag, verbose).block)
  {
    var f := Filter("useragent", UserAgentProc.LogstashParams(u));
    var blk := RunWithTags([f], [tag]);
    assert WellFormed(blk[0]);
    assert WellFormed(blk[1]) by {
      assert blk[1] == Nested([f]);
    }
    assert WellFormed(Nested(blk));
    VerboseWellFormed(verbose, "useragent", [Nested(blk)]);
  }

  lemma RemoveWellFormed(r: RemoveProc.Config, verbose: bool)
    ensures WellFormedBlock(RemoveProc.CompileLogstash(r, verbose).block)
  {
    VerboseWellFormed(verbose, "remove", [Filter("mutate", map["remove_field" := Values.StrList([NormalizedField(r.field)])])]);
  }

  lemma RubyWellFormed(r: RubyProc.Config, verbose: bool)
    ensures WellFormedBlock(RubyProc.CompileLogstash(r, verbose).block)
  {
    VerboseWellFormed(verbose, "ruby", [Filter("ruby", map["code" := Values.Str(RubyProc.OneLine(r.code))])]);
  }

  /** The units of a list that compiles have blocks the printer accepts. */
  lemma {:induction false} UnitsWellFormed(ps: seq<Processor>, verbose: bool, disable: bool, count: nat)
    requires CompileUnits(ps, verbose, disable, count).Ok?
    ensures var blks := CompileUnits(ps, verbose, disable, count).value.0;
      forall i :: 0 <= i < |blks| ==> WellFormedBlock(blks[i].block)
    decreases ps, 1
  {
    if ps != [] {
      var n := |ps| - 1;
      UnitsWellFormed(ps[..n], verbose, disable, count);
      var init := CompileUnits(ps[..n], verbose, disable, count).value;
      UnitWellFormed(ps[n], verbose, disable, init.1);
    }
  }

  /** A list that compiles has a block the printer accepts. */
  lemma ListWellFormed(ps: seq<Processor>, policy: ErrorPolicy, verbose: bool, disable: bool, count: nat)
    requires CompileLsList(ps, policy, verbose, disable, count).Ok?
    ensures WellFormedBlock(CompileLsList(ps, policy, verbose, disable, count).value.0.block)
    decreases ps, 2
  {
    if ps != [] {
      UnitsWellFormed(ps, verbose, disable, count);
      var blks := CompileUnits(ps, verbose, disable, count).value.0;
      LinkWellFormed(blks, Names(ps), policy, disable);
    }
  }
}
