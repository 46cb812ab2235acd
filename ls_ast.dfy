/**
 * The Logstash program AST (prog/ls/filter.go, prog/ls/ls.go): filters,
 * conditionals and nested blocks, and the small builders the processors use
 * to fill filter parameters.
 */
module LsAst {
  import opened Values
  import opened Strs
  import opened Wrappers

  /** A statement of a Logstash `filter {}` section. A `Block` is itself a statement. */
  datatype Statement =
    | Filter(name: string, params: Params)
    | Conditional(cases: seq<Case>, elseBlock: seq<Statement>)
    | Nested(block: seq<Statement>)

  /** One `if`/`elif` arm. */
  datatype Case = Case(cond: string, body: seq<Statement>)

  type Block = seq<Statement>

  /** A whole Logstash program: an optional pipeline id guard, a comment and the filter block. */
  datatype Pipeline = Pipeline(metaPipeline: string, description: string, block: Block)

  /** Appends the event debug print to the statements when `verbose` is set. */
  function MakeVerboseBlock(verbose: bool, name: string, stmts: seq<Statement>): (b: Block)
    ensures |b| == |stmts| + (if verbose then 1 else 0)
    ensures b[..|stmts|] == stmts
    ensures verbose ==> b[|stmts|] == MakePrintEventDebug(name)
  {
    if verbose then stmts + [MakePrintEventDebug(name)] else stmts
  }

  /** The `ruby` filter that prints the processor name and the event as JSON. */
  function MakePrintEventDebug(name: string): (f: Statement)
    ensures f.Filter? && f.name == "ruby" && f.params.Keys == {"init", "code"}
    ensures f.params["code"] == Str("puts '" + name + "'; puts JSON.pretty_generate(event); puts '=' * 80")
  {
    Filter("ruby", map[
      "init" := Str("require 'json'"),
      "code" := Str("puts '" + name + "'; puts JSON.pretty_generate(event); puts '=' * 80")])
  }

  /** `Params.Target`: sets `target` to the normalized field when one is given. */
  function Target(p: Params, field: string): (r: Params)
    ensures field != "" ==> "target" in r && r["target"] == Str(NormalizedField(field))
    ensures field == "" ==> r == p
    ensures forall k :: k != "target" ==> (k in r <==> k in p) && (k in r ==> r[k] == p[k])
  {
    if field != "" then p["target" := Str(NormalizedField(field))] else p
  }

  /** `Params.DropField`: removes the source field after the filter when `drop` is set. */
  function DropField(p: Params, drop: bool, name: string): (r: Params)
    ensures drop ==> r == RemoveField(p, name)
    ensures !drop ==> r == p
  {
    if drop then RemoveField(p, name) else p
  }

  /** `Params.RemoveField`: a one-element `remove_field` list holding the normalized field. */
  function RemoveField(p: Params, name: string): (r: Params)
    ensures "remove_field" in r && r["remove_field"] == StrList([NormalizedField(name)])
    ensures forall k :: k != "remove_field" ==> (k in r <==> k in p) && (k in r ==> r[k] == p[k])
  {
    p["remove_field" := StrList([NormalizedField(name)])]
  }

  /** Guards `blk` by the truthiness of the normalized `field`. */
  function IgnoreMissing(field: string, blk: Block): (b: Block)
    ensures |b| == 1 && b[0].Conditional?
    ensures b[0].cases == [Case(NormalizedField(field), blk)] && b[0].elseBlock == []
  {
    [Conditional([Case(NormalizedField(field), blk)], [])]
  }

  /** A `mutate` adding `tags`, followed by `blk` as one nested statement. */
  function RunWithTags(blk: Block, tags: seq<string>): (b: Block)
    ensures |b| == 2 && b[1] == Nested(blk)
    ensures b[0] == Filter("mutate", map["add_tag" := StrList(tags)])
  {
    [Filter("mutate", map["add_tag" := StrList(tags)]), Nested(blk)]
  }

  /** The `mutate` that drops the pipeline id field before a guarded program runs. */
  const DropPipelineId: Statement := Filter("mutate", RemoveField(map[], "@metadate.pipeline"))

  /**
   * The block `Serialize` prints: with a pipeline id, the program only runs
   * for events carrying that id, and removes the id field first.
   */
  function GuardedBlock(p: Pipeline): (b: Block)
    ensures p.metaPipeline == "" ==> b == p.block
    ensures p.metaPipeline != "" ==>
      |b| == 1 && b[0].Conditional? && |b[0].cases| == 1 && b[0].elseBlock == []
      && b[0].cases[0].cond == "[@metadate][pipeline] == \"" + p.metaPipeline + "\""
      && b[0].cases[0].body == [DropPipelineId] + p.block
    ensures WellFormedBlock(p.block) ==> WellFormedBlock(b)
  {
    if p.metaPipeline == "" then p.block
    else
      var body := [DropPipelineId] + p.block;
      var cond := "[@metadate][pipeline] == \"" + p.metaPipeline + "\"";
      if WellFormedBlock(p.block) then
        DropPipelineIdWellFormed();
        WellFormedConcat([DropPipelineId], p.block);
        ConditionalWellFormed([Case(cond, body)], []);
        [Conditional([Case(cond, body)], [])]
      else
        [Conditional([Case(cond, body)], [])]
  }

  lemma DropPipelineIdWellFormed()
    ensures WellFormedBlock([DropPipelineId])
  {
    var m := RemoveField(map[], "@metadate.pipeline");
    assert "" != "remove_field";
    assert "" !in m;
    assert WellFormed(Filter("mutate", m));
  }

  // ----- field names -----

  function Bracketed(parts: seq<string>): (r: seq<string>)
    ensures |r| == |parts|
    ensures forall k :: 0 <= k < |parts| ==> r[k] == "[" + parts[k] + "]"
  {
    seq(|parts|, k requires 0 <= k < |parts| => "[" + parts[k] + "]")
  }

  /** `NormalizeField`: the dotted event field name as a Logstash field reference `[a][b]`. */
  function NormalizedField(field: string): string
  {
    Concat(Bracketed(Split(field, '.')))
  }

  /** `NormalizeField` as the source writes it: the segments are bracketed in place, then joined. */
  method NormalizeField(field: string) returns (r: string)
    ensures r == NormalizedField(field)
  {
    var sub := Split(field, '.');
    var segs := new string[|sub|](k requires 0 <= k < |sub| => sub[k]);
    for i := 0 to segs.Length
      invariant forall k :: 0 <= k < i ==> segs[k] == "[" + sub[k] + "]"
      invariant forall k :: i <= k < segs.Length ==> segs[k] == sub[k]
    {
      segs[i] := "[" + segs[i] + "]";
    }
    assert segs[..] == Bracketed(sub);
    r := Concat(segs[..]);
  }

  /** A field without dots is one segment. */
  lemma NormalizedPlainField(field: string)
    requires '.' !in field
    ensures NormalizedField(field) == "[" + field + "]"
  {
  }

  /** A dotted name normalizes segment-wise: `a.b` becomes the references of `a` and `b` side by side. */
  lemma NormalizedDotted(a: string, b: string)
    ensures NormalizedField(a + "." + b) == NormalizedField(a) + NormalizedField(b)
  {
    SplitAround(a, b, '.');
    assert a + "." + b == a + ['.'] + b;
    var sa, sb := Split(a, '.'), Split(b, '.');
    assert Bracketed(sa + sb) == Bracketed(sa) + Bracketed(sb);
    ConcatAppend(Bracketed(sa), Bracketed(sb));
  }

  /** Reads `[a][b]...` back into its segments. */
  function ParseRefs(s: string): Option<seq<string>>
    decreases |s|
  {
    if s == [] then Some([])
    else if s[0] != '[' then None
    else
      var j := IndexOf(s[1..], ']');
      if j < 0 then None
      else
        match ParseRefs(s[j + 2..])
        case Some(rest) => Some([s[1..j + 1]] + rest)
        case None => None
  }

  /** The dotted field name a field reference denotes. */
  function DenormalizedField(s: string): Option<string>
  {
    match ParseRefs(s)
    case Some(parts) => if |parts| == 0 then None else Some(Join(parts, "."))
    case None => None
  }

  lemma {:induction false} ParseBracketed(parts: seq<string>)
    requires forall k :: 0 <= k < |parts| ==> ']' !in parts[k]
    ensures ParseRefs(Concat(Bracketed(parts))) == Some(parts)
  {
    if parts != [] {
      var tail := Concat(Bracketed(parts[1..]));
      assert Bracketed(parts)[1..] == Bracketed(parts[1..]);
      assert Concat(Bracketed(parts)) == "[" + parts[0] + "]" + tail;
      ParseBracketed(parts[1..]);
      ParseOneRef(parts[0], tail);
      assert [parts[0]] + parts[1..] == parts;
    }
  }

  lemma ParseOneRef(p: string, tail: string)
    requires ']' !in p
    ensures ParseRefs("[" + p + "]" + tail) ==
      match ParseRefs(tail)
      case Some(rest) => Some([p] + rest)
      case None => None
  {
    var s := "[" + p + "]" + tail;
    assert s[1..] == p + [']'] + tail;
    IndexOfAfterFree(p, ']', tail);
    assert s[1..|p| + 1] == p;
    assert s[|p| + 2..] == tail;
  }

  /** Normalizing a field name loses nothing: the reference reads back as the same name. */
  lemma NormalizedFieldRoundTrip(field: string)
    requires ']' !in field
    ensures DenormalizedField(NormalizedField(field)) == Some(field)
  {
    var parts := Split(field, '.');
    forall k | 0 <= k < |parts|
      ensures ']' !in parts[k]
    {
      SplitPartsFrom(field, '.', ']', k);
    }
    ParseBracketed(parts);
    JoinSplit(field, '.');
  }

  lemma {:induction false} SplitPartsFrom(s: string, c: char, d: char, k: nat)
    requires d !in s
    requires k < |Split(s, c)|
    ensures d !in Split(s, c)[k]
    decreases |s|
  {
    var i := IndexOf(s, c);
    if i < 0 {
      assert Split(s, c) == [s];
    } else {
      var head, tail := s[..i], s[i + 1..];
      assert Split(s, c) == [head] + Split(tail, c);
      if k > 0 {
        assert d !in tail by {
          forall j | 0 <= j < |tail|
            ensures tail[j] != d
          {
            assert tail[j] == s[i + 1 + j];
          }
        }
        SplitPartsFrom(tail, c, d, k - 1);
        assert Split(s, c)[k] == Split(tail, c)[k - 1];
      } else {
        assert d !in head by {
          forall j | 0 <= j < |head|
            ensures head[j] != d
          {
            assert head[j] == s[j];
          }
        }
      }
    }
  }

  // ----- shape the formatter relies on -----

  /** Every conditional has an `if` arm and every top-level parameter name is non-empty. */
  predicate WellFormed(s: Statement)
    decreases s
  {
    match s
    case Filter(_, params) => "" !in params
    case Conditional(cases, els) =>
      |cases| >= 1 && (forall j :: 0 <= j < |cases| ==> WellFormedBlock(cases[j].body))
      && WellFormedBlock(els)
    case Nested(b) => WellFormedBlock(b)
  }

  predicate WellFormedBlock(b: Block)
    decreases b
  {
    forall i :: 0 <= i < |b| ==> WellFormed(b[i])
  }

  /** A conditional with at least one arm, over well-formed blocks, is a well-formed one-statement block. */
  lemma ConditionalWellFormed(cases: seq<Case>, els: Block)
    requires |cases| >= 1 && forall j :: 0 <= j < |cases| ==> WellFormedBlock(cases[j].body)
    requires WellFormedBlock(els)
    ensures WellFormedBlock([Conditional(cases, els)])
  {
    assert WellFormed(Conditional(cases, els));
  }

  lemma WellFormedConcat(a: Block, b: Block)
    requires WellFormedBlock(a) && WellFormedBlock(b)
    ensures WellFormedBlock(a + b)
  {
    assert forall i :: 0 <= i < |a + b| ==> (a + b)[i] == if i < |a| then a[i] else b[i - |a|];
  }

  /** The debug print added in verbose mode keeps a block well formed. */
  lemma VerboseWellFormed(verbose: bool, name: string, blk: Block)
    requires WellFormedBlock(blk)
    ensures WellFormedBlock(MakeVerboseBlock(verbose, name, blk))
  {
    if verbose {
      WellFormedConcat(blk, [MakePrintEventDebug(name)]);
    }
  }
}
