/**
 * The processor registry (generator/reg.go): a map from processor names to
 * factories, filled by each processor package, and the loaders that turn a
 * list of single-key processor records into processors.
 */
module Registry {
  import opened Wrappers
  import opened Records
  import opened Processors
  import DateProc
  import SplitProc
  import GrokProc
  import KvProc
  import ConvertProc
  import UserAgentProc
  import GsubProc
  import JsonProc
  import GeoipProc
  import RenameProc
  import RemoveProc
  import ScriptProc
  import RubyProc
  import Threading

  /** The configuration under a processor name, already unpacked into the shape of one kind. */
  datatype RawConfig =
    | DateCfg(date: DateProc.Config)
    | SplitCfg(split: SplitProc.Config)
    | GrokCfg(grok: GrokProc.Config)
    | KvCfg(kv: KvProc.Config)
    | ConvertCfg(convert: ConvertProc.Config)
    | UserAgentCfg(useragent: UserAgentProc.Config)
    | GsubCfg(gsub: GsubProc.Config)
    | JsonCfg(json: JsonProc.Config)
    | GeoipCfg(geoip: GeoipProc.Config)
    | RenameCfg(rename: RenameProc.Config)
    | RemoveCfg(remove: RemoveProc.Config)
    | ScriptCfg(script: ScriptProc.Config)
    | RubyCfg(ruby: RubyProc.Config)
    | SelectCfg(ingest: seq<Record>, logstash: seq<Record>)

  /** One entry of a processor list: processor names to their configurations. */
  datatype Record = Record(entries: map<string, RawConfig>)

  /** The factory each processor package registers. */
  datatype Factory =
    | MakeDate | MakeSplit | MakeGrok | MakeKv | MakeConvert | MakeUserAgent | MakeGsub
    | MakeJson | MakeGeoip | MakeRename | MakeRemove | MakeScript | MakeRuby | MakeSelect

  /** The registrations of the processor packages. */
  const Builtin: map<string, Factory> := map[
    "date" := MakeDate, "split" := MakeSplit, "grok" := MakeGrok, "kv" := MakeKv,
    "convert" := MakeConvert, "user_agent" := MakeUserAgent, "gsub" := MakeGsub,
    "json" := MakeJson, "geoip" := MakeGeoip, "rename" := MakeRename,
    "remove" := MakeRemove, "script" := MakeScript, "ruby" := MakeRuby,
    "select" := MakeSelect]

  lemma BuiltinEntries()
    ensures Builtin == map[
      "date" := MakeDate, "split" := MakeSplit, "grok" := MakeGrok, "kv" := MakeKv,
      "convert" := MakeConvert, "user_agent" := MakeUserAgent, "gsub" := MakeGsub,
      "json" := MakeJson, "geoip" := MakeGeoip, "rename" := MakeRename,
      "remove" := MakeRemove, "script" := MakeScript, "ruby" := MakeRuby,
      "select" := MakeSelect]
  {
  }

  /** The error of a configuration whose shape is not the one the factory unpacks. */
  function ShapeError(f: Factory): string
  {
    "configuration does not fit the " + (match f
      case MakeDate => "date" case MakeSplit => "split" case MakeGrok => "grok"
      case MakeKv => "kv" case MakeConvert => "convert" case MakeUserAgent => "user_agent"
      case MakeGsub => "gsub" case MakeJson => "json" case MakeGeoip => "geoip"
      case MakeRename => "rename" case MakeRemove => "remove" case MakeScript => "script"
      case MakeRuby => "ruby" case MakeSelect => "select") + " factory"
  }

  /** The error `LoadNamed` gives for a name nobody registered. */
  function NotAvailable(name: string): string
  {
    "processor '" + name + "' not available"
  }

  /** The loader of each kind that holds no other processors, applied to its own configuration. */
  function BuildLeaf(cfg: RawConfig): (r: Result<Processor>)
    requires !cfg.SelectCfg?
    ensures cfg.DateCfg? ==>
      r == (if DateProc.Make(cfg.date).Ok? then Ok(Date(DateProc.Make(cfg.date).value)) else Err(DateProc.Make(cfg.date).error))
    ensures cfg.SplitCfg? ==>
      r == (if SplitProc.Make(cfg.split).Ok? then Ok(Split(SplitProc.Make(cfg.split).value)) else Err(SplitProc.Make(cfg.split).error))
    ensures cfg.GrokCfg? ==>
      r == (if GrokProc.Make(cfg.grok).Ok? then Ok(Grok(GrokProc.Make(cfg.grok).value)) else Err(GrokProc.Make(cfg.grok).error))
    ensures cfg.KvCfg? ==>
      r == (if KvProc.Make(cfg.kv).Ok? then Ok(Kv(KvProc.Make(cfg.kv).value)) else Err(KvProc.Make(cfg.kv).error))
    ensures cfg.ConvertCfg? ==>
      r == (if ConvertProc.Make(cfg.convert).Ok? then Ok(Convert(ConvertProc.Make(cfg.convert).value)) else Err(ConvertProc.Make(cfg.convert).error))
    ensures cfg.UserAgentCfg? ==>
      r == (if UserAgentProc.Make(cfg.useragent).Ok? then Ok(UserAgent(UserAgentProc.Make(cfg.useragent).value)) else Err(UserAgentProc.Make(cfg.useragent).error))
    ensures cfg.GsubCfg? ==>
      r == (if GsubProc.Make(cfg.gsub).Ok? then Ok(Gsub(GsubProc.Make(cfg.gsub).value)) else Err(GsubProc.Make(cfg.gsub).error))
    ensures cfg.JsonCfg? ==>
      r == (if JsonProc.Make(cfg.json).Ok? then Ok(Json(JsonProc.Make(cfg.json).value)) else Err(JsonProc.Make(cfg.json).error))
    ensures cfg.GeoipCfg? ==>
      r == (if GeoipProc.Make(cfg.geoip).Ok? then Ok(Geoip(GeoipProc.Make(cfg.geoip).value)) else Err(GeoipProc.Make(cfg.geoip).error))
    ensures cfg.RenameCfg? ==>
      r == (if RenameProc.Make(cfg.rename).Ok? then Ok(Rename(RenameProc.Make(cfg.rename).value)) else Err(RenameProc.Make(cfg.rename).error))
    ensures cfg.RemoveCfg? ==>
      r == (if RemoveProc.Make(cfg.remove).Ok? then Ok(Remove(RemoveProc.Make(cfg.remove).value)) else Err(RemoveProc.Make(cfg.remove).error))
    ensures cfg.ScriptCfg? ==>
      r == (if ScriptProc.Make(cfg.script).Ok? then Ok(Script(ScriptProc.Make(cfg.script).value)) else Err(ScriptProc.Make(cfg.script).error))
    ensures cfg.RubyCfg? ==> r == Ok(Ruby(cfg.ruby))
  {
    match cfg
    case DateCfg(c) => var d :- DateProc.Make(c); Ok(Date(d))
    case SplitCfg(c) => var s :- SplitProc.Make(c); Ok(Split(s))
    case GrokCfg(c) => var g :- GrokProc.Make(c); Ok(Grok(g))
    case KvCfg(c) => var k :- KvProc.Make(c); Ok(Kv(k))
    case ConvertCfg(c) => var k :- ConvertProc.Make(c); Ok(Convert(k))
    case UserAgentCfg(c) => var u :- UserAgentProc.Make(c); Ok(UserAgent(u))
    case GsubCfg(c) => var g :- GsubProc.Make(c); Ok(Gsub(g))
    case JsonCfg(c) => var j :- JsonProc.Make(c); Ok(Json(j))
    case GeoipCfg(c) => var g :- GeoipProc.Make(c); Ok(Geoip(g))
    case RenameCfg(c) => var n :- RenameProc.Make(c); Ok(Rename(n))
    case RemoveCfg(c) => var n :- RemoveProc.Make(c); Ok(Remove(n))
    case ScriptCfg(c) => var s :- ScriptProc.Make(c); Ok(Script(s))
    case RubyCfg(c) => Ok(Ruby(c))
  }

  /**
   * A factory applied to a configuration: the kind's own loader, and for
   * `select` the Ingest list loaded before the Logstash list.
   */
  function BuildSpec(reg: map<string, Factory>, f: Factory, cfg: RawConfig): (r: Result<Processor>)
    ensures ShapeOf(cfg) != f ==> r == Err(ShapeError(f))
    ensures ShapeOf(cfg) == f && !cfg.SelectCfg? ==> r == BuildLeaf(cfg)
    ensures f == MakeSelect && cfg.SelectCfg? ==>
      (LoadAllSpec(reg, cfg.ingest).Err? ==> r == Err(LoadAllSpec(reg, cfg.ingest).error))
      && (LoadAllSpec(reg, cfg.ingest).Ok? && LoadAllSpec(reg, cfg.logstash).Err? ==>
            r == Err(LoadAllSpec(reg, cfg.logstash).error))
      && (LoadAllSpec(reg, cfg.ingest).Ok? && LoadAllSpec(reg, cfg.logstash).Ok? ==>
            r == Ok(Select(LoadAllSpec(reg, cfg.ingest).value, LoadAllSpec(reg, cfg.logstash).value)))
    decreases cfg, 0
  {
    if ShapeOf(cfg) != f then Err(ShapeError(f))
    else if cfg.SelectCfg? then
      var i :- LoadAllSpec(reg, cfg.ingest);
      var l :- LoadAllSpec(reg, cfg.logstash);
      Ok(Select(i, l))
    else BuildLeaf(cfg)
  }

  /** The factory that unpacks configurations of the shape of `cfg`. */
  function ShapeOf(cfg: RawConfig): Factory
  {
    match cfg
    case DateCfg(_) => MakeDate
    case SplitCfg(_) => MakeSplit
    case GrokCfg(_) => MakeGrok
    case KvCfg(_) => MakeKv
    case ConvertCfg(_) => MakeConvert
    case UserAgentCfg(_) => MakeUserAgent
    case GsubCfg(_) => MakeGsub
    case JsonCfg(_) => MakeJson
    case GeoipCfg(_) => MakeGeoip
    case RenameCfg(_) => MakeRename
    case RemoveCfg(_) => MakeRemove
    case ScriptCfg(_) => MakeScript
    case RubyCfg(_) => MakeRuby
    case SelectCfg(_, _) => MakeSelect
  }

  /** `LoadNamed`: the registered factory applied to the configuration. */
  function LoadNamedSpec(reg: map<string, Factory>, name: string, cfg: RawConfig): (r: Result<Processor>)
    ensures name !in reg ==> r == Err(NotAvailable(name))
    decreases cfg, 1
  {
    if name !in reg then Err(NotAvailable(name)) else BuildSpec(reg, reg[name], cfg)
  }

  /** `Load`: a record must have exactly one processor name. */
  function LoadSpec(reg: map<string, Factory>, rec: Record): (r: Result<Processor>)
    ensures |rec.entries| == 0 ==> r == Err("can not load empty processor")
    ensures |rec.entries| > 1 ==> r == Err("multiple processors")
    decreases rec, 2
  {
    if |rec.entries| == 0 then Err("can not load empty processor")
    else if |rec.entries| > 1 then Err("multiple processors")
    else
      var name := OnlyKey(rec.entries);
      LoadNamedSpec(reg, name, rec.entries[name])
  }

  /** A record with exactly one name loads the configuration under that name. */
  lemma LoadSpecSingle(reg: map<string, Factory>, rec: Record, name: string)
    requires rec.entries.Keys == {name}
    ensures LoadSpec(reg, rec) == LoadNamedSpec(reg, name, rec.entries[name])
  {
    assert |rec.entries| == |rec.entries.Keys| == 1;
  }

  /** `LoadAll`: the processors of the records in order, or the first error. */
  function LoadAllSpec(reg: map<string, Factory>, rs: seq<Record>): (r: Result<seq<Processor>>)
    ensures rs == [] ==> r == Ok([])
    ensures r.Ok? ==> |r.value| == |rs|
    decreases rs, 3
  {
    if rs == [] then Ok([])
    else
      var init :- LoadAllSpec(reg, rs[..|rs| - 1]);
      var p :- LoadSpec(reg, rs[|rs| - 1]);
      Ok(init + [p])
  }

  /**
   * Loading a list succeeds exactly when every record loads, and then gives
   * one processor per record in input order; otherwise it gives the error of
   * the first record that fails.
   */
  lemma LoadAllSpecProps(reg: map<string, Factory>, rs: seq<Record>)
    ensures LoadAllSpec(reg, rs).Ok? <==> forall i :: 0 <= i < |rs| ==> LoadSpec(reg, rs[i]).Ok?
    ensures LoadAllSpec(reg, rs).Ok? ==>
      forall i :: 0 <= i < |rs| ==> LoadSpec(reg, rs[i]) == Ok(LoadAllSpec(reg, rs).value[i])
    ensures LoadAllSpec(reg, rs).Err? ==>
      exists k :: (0 <= k < |rs|
                   && (forall i :: 0 <= i < k ==> LoadSpec(reg, rs[i]).Ok?)
                   && LoadSpec(reg, rs[k]) == Err(LoadAllSpec(reg, rs).error))
  {
    LoadAllOk(reg, rs);
    if LoadAllSpec(reg, rs).Ok? {
      LoadAllValues(reg, rs);
    } else {
      LoadAllFirstError(reg, rs);
    }
  }

  /** `LoadSpec` as the step of a list load. */
  function LoadStep(reg: map<string, Factory>): (f: Record -> Result<Processor>)
    ensures forall rec :: f(rec) == LoadSpec(reg, rec)
  {
    rec => LoadSpec(reg, rec)
  }

  /** `LoadAllSpec` applies `LoadSpec` to each record in order and stops at the first error. */
  lemma {:induction false} LoadAllAll(reg: map<string, Factory>, rs: seq<Record>)
    ensures LoadAllSpec(reg, rs) == Threading.All(LoadStep(reg), rs)
    decreases |rs|
  {
    if rs != [] {
      LoadAllAll(reg, rs[..|rs| - 1]);
    }
  }

  lemma LoadAllOk(reg: map<string, Factory>, rs: seq<Record>)
    ensures LoadAllSpec(reg, rs).Ok? <==> forall i :: 0 <= i < |rs| ==> LoadSpec(reg, rs[i]).Ok?
  {
    LoadAllAll(reg, rs);
    Threading.AllOk(LoadStep(reg), rs);
  }

  lemma LoadAllValues(reg: map<string, Factory>, rs: seq<Record>)
    requires LoadAllSpec(reg, rs).Ok?
    ensures forall i :: 0 <= i < |rs| ==> LoadSpec(reg, rs[i]) == Ok(LoadAllSpec(reg, rs).value[i])
  {
    LoadAllAll(reg, rs);
    Threading.AllOk(LoadStep(reg), rs);
  }

  lemma LoadAllFirstError(reg: map<string, Factory>, rs: seq<Record>)
    requires LoadAllSpec(reg, rs).Err?
    ensures exists k :: (0 <= k < |rs|
                         && (forall i :: 0 <= i < k ==> LoadSpec(reg, rs[i]).Ok?)
                         && LoadSpec(reg, rs[k]) == Err(LoadAllSpec(reg, rs).error))
  {
    LoadAllAll(reg, rs);
    var k := Threading.AllFirstError(LoadStep(reg), rs);
  }


  /** Once a prefix of the list fails, the whole list fails with the same error. */
  lemma {:induction false} LoadAllPrefixErr(reg: map<string, Factory>, rs: seq<Record>, j: nat)
    requires j <= |rs|
    requires LoadAllSpec(reg, rs[..j]).Err?
    ensures LoadAllSpec(reg, rs) == LoadAllSpec(reg, rs[..j])
    decreases |rs| - j
  {
    if j < |rs| {
      var next := rs[..j + 1];
      assert next[..j] == rs[..j];
      assert LoadAllSpec(reg, next) == LoadAllSpec(reg, rs[..j]);
      LoadAllPrefixErr(reg, rs, j + 1);
    } else {
      assert rs[..j] == rs;
    }
  }

  /** The name a processor made by a factory reports. */
  function KindName(f: Factory): string
  {
    match f
    case MakeDate => "date" case MakeSplit => "split" case MakeGrok => "grok"
    case MakeKv => "kv" case MakeConvert => "convert" case MakeUserAgent => "useragent"
    case MakeGsub => "gsub" case MakeJson => "json" case MakeGeoip => "geoip"
    case MakeRename => "rename" case MakeRemove => "remove" case MakeScript => "script"
    case MakeRuby => "ruby" case MakeSelect => "select"
  }

  /** A factory that succeeds makes a processor of its own kind. */
  lemma BuildKind(reg: map<string, Factory>, f: Factory, cfg: RawConfig)
    requires BuildSpec(reg, f, cfg).Ok?
    ensures Name(BuildSpec(reg, f, cfg).value) == KindName(f)
  {
    if !cfg.SelectCfg? {
      LeafKind(cfg);
    }
  }

  /** A loader that succeeds makes a processor of the kind its configuration is shaped for. */
  lemma LeafKind(cfg: RawConfig)
    requires !cfg.SelectCfg? && BuildLeaf(cfg).Ok?
    ensures Name(BuildLeaf(cfg).value) == KindName(ShapeOf(cfg))
  {
    if IsParser(cfg) {
      ParserKind(cfg);
    } else {
      EditorKind(cfg);
    }
  }

  /** The kinds that parse a field into others. */
  predicate IsParser(cfg: RawConfig)
  {
    cfg.DateCfg? || cfg.SplitCfg? || cfg.GrokCfg? || cfg.KvCfg? || cfg.ConvertCfg? || cfg.UserAgentCfg?
  }

  lemma ParserKind(cfg: RawConfig)
    requires IsParser(cfg) && BuildLeaf(cfg).Ok?
    ensures Name(BuildLeaf(cfg).value) == KindName(ShapeOf(cfg))
  {
    match cfg
    case DateCfg(_) =>
    case SplitCfg(_) =>
    case GrokCfg(_) =>
    case KvCfg(_) =>
    case ConvertCfg(_) =>
    case UserAgentCfg(_) =>
  }

  lemma EditorKind(cfg: RawConfig)
    requires !IsParser(cfg) && !cfg.SelectCfg? && BuildLeaf(cfg).Ok?
    ensures Name(BuildLeaf(cfg).value) == KindName(ShapeOf(cfg))
  {
    match cfg
    case GsubCfg(_) =>
    case JsonCfg(_) =>
    case GeoipCfg(_) =>
    case RenameCfg(_) =>
    case RemoveCfg(_) =>
    case ScriptCfg(_) =>
    case RubyCfg(_) =>
  }

  /** A loaded processor is of the kind its registered name selects. */
  lemma LoadNamedKind(name: string, cfg: RawConfig)
    requires LoadNamedSpec(Builtin, name, cfg).Ok?
    ensures Name(LoadNamedSpec(Builtin, name, cfg).value) == if name == "user_agent" then "useragent" else name
  {
    assert name in Builtin;
    BuildKind(Builtin, Builtin[name], cfg);
    BuiltinKindName(name);
  }

  /** Every registered name is the name of its kind, except `user_agent`, whose kind is `useragent`. */
  lemma BuiltinKindName(name: string)
    requires name in Builtin
    ensures KindName(Builtin[name]) == if name == "user_agent" then "useragent" else name
  {
  }

  /** The global registry of processor factories. */
  class Registry {
    var processors: map<string, Factory>

    constructor()
      ensures processors == map[]
    {
      processors := map[];
    }

    /** `Register`: registering a name twice is a panic in the source, so it is a precondition here. */
    method Register(name: string, f: Factory)
      requires name !in processors
      modifies this
      ensures processors == old(processors)[name := f]
    {
      processors := processors[name := f];
    }

    /** What each processor package's `init` does, on an empty registry. */
    method RegisterBuiltins()
      requires processors == map[]
      modifies this
      ensures processors == Builtin
    {
      RegisterGroup1();
      RegisterGroup2();
      RegisterGroup3();
      BuiltinEntries();
    }

    /** The `init`s of date, split, grok, kv and convert. */
    method RegisterGroup1()
      requires processors == map[]
      modifies this
      ensures processors == map[
        "date" := MakeDate, "split" := MakeSplit, "grok" := MakeGrok, "kv" := MakeKv,
        "convert" := MakeConvert]
    {
      Register("date", MakeDate);
      Register("split", MakeSplit);
      Register("grok", MakeGrok);
      Register("kv", MakeKv);
      Register("convert", MakeConvert);
    }

    /** The `init`s of user_agent, gsub, json, geoip and rename. */
    method RegisterGroup2()
      requires processors == map[
        "date" := MakeDate, "split" := MakeSplit, "grok" := MakeGrok, "kv" := MakeKv,
        "convert" := MakeConvert]
      modifies this
      ensures processors == map[
        "date" := MakeDate, "split" := MakeSplit, "grok" := MakeGrok, "kv" := MakeKv,
        "convert" := MakeConvert,
        "user_agent" := MakeUserAgent, "gsub" := MakeGsub, "json" := MakeJson,
        "geoip" := MakeGeoip, "rename" := MakeRename]
    {
      Register("user_agent", MakeUserAgent);
      Register("gsub", MakeGsub);
      Register("json", MakeJson);
      Register("geoip", MakeGeoip);
      Register("rename", MakeRename);
    }

    /** The `init`s of remove, script, ruby and select. */
    method RegisterGroup3()
      requires processors == map[
        "date" := MakeDate, "split" := MakeSplit, "grok" := MakeGrok, "kv" := MakeKv,
        "convert" := MakeConvert,
        "user_agent" := MakeUserAgent, "gsub" := MakeGsub, "json" := MakeJson,
        "geoip" := MakeGeoip, "rename" := MakeRename]
      modifies this
      ensures processors == map[
        "date" := MakeDate, "split" := MakeSplit, "grok" := MakeGrok, "kv" := MakeKv,
        "convert" := MakeConvert,
        "user_agent" := MakeUserAgent, "gsub" := MakeGsub, "json" := MakeJson,
        "geoip" := MakeGeoip, "rename" := MakeRename,
        "remove" := MakeRemove, "script" := MakeScript, "ruby" := MakeRuby,
        "select" := MakeSelect]
    {
      Register("remove", MakeRemove);
      Register("script", MakeScript);
      Register("ruby", MakeRuby);
      Register("select", MakeSelect);
    }

    /** `Find`: the factory registered under `name`, if any. */
    function Find(name: string): (f: Option<Factory>)
      reads this
      ensures f.Some? <==> name in processors
      ensures f.Some? ==> f.value == processors[name]
    {
      if name in processors then Some(processors[name]) else None
    }

    /** Applies a factory; `select` loads its two lists through this registry. */
    method Build(f: Factory, cfg: RawConfig) returns (r: Result<Processor>)
      ensures r == BuildSpec(processors, f, cfg)
      decreases cfg, 0
    {
      if f == MakeSelect && cfg.SelectCfg? {
        var ingest := LoadAll(cfg.ingest);
        if ingest.Err? {
          return Err(ingest.error);
        }
        var logstash := LoadAll(cfg.logstash);
        if logstash.Err? {
          return Err(logstash.error);
        }
        return Ok(Select(ingest.value, logstash.value));
      }
      r := BuildSpec(processors, f, cfg);
    }

    /** `LoadNamed`: fails for an unregistered name, otherwise runs its factory. */
    method LoadNamed(name: string, cfg: RawConfig) returns (r: Result<Processor>)
      ensures r == LoadNamedSpec(processors, name, cfg)
      decreases cfg, 1
    {
      var factory := Find(name);
      if factory.None? {
        return Err(NotAvailable(name));
      }
      r := Build(factory.value, cfg);
    }

    /** `Load`: checks the record has one name, then loads under that name. */
    method Load(config: Record) returns (r: Result<Processor>)
      ensures r == LoadSpec(processors, config)
      decreases config, 2
    {
      if |config.entries| == 0 {
        return Err("can not load empty processor");
      }
      if |config.entries| > 1 {
        return Err("multiple processors");
      }
      var name := OnlyKey(config.entries);
      r := LoadNamed(name, config.entries[name]);
    }

    /** `LoadAll`: loads the records in order and stops at the first error. */
    method LoadAll(configs: seq<Record>) returns (r: Result<seq<Processor>>)
      ensures r == LoadAllSpec(processors, configs)
      decreases configs, 3
    {
      if |configs| == 0 {
        return Ok([]);
      }
      var ps: seq<Processor> := [];
      for i := 0 to |configs|
        invariant LoadAllSpec(processors, configs[..i]) == Ok(ps)
      {
        var p := Load(configs[i]);
        assert configs[..i + 1][..i] == configs[..i];
        if p.Err? {
          LoadAllPrefixErr(processors, configs, i + 1);
          return Err(p.error);
        }
        ps := ps + [p.value];
      }
      assert configs[..|configs|] == configs;
      r := Ok(ps);
    }
  }
}
