/**
 * The Logstash side of the generator (generator/ls.go): the compile context
 * with its tag counter, the `FilterBlock` a processor compiles to (a block
 * and the tags it sets when it fails), the failure-tag guard, the Ruby
 * filter builder, the error handlers, and the pieces
 * `CompileLogstashProcessors` assembles its result from.
 */
module GenLs {
  import opened Wrappers
  import opened Values
  import opened Strs
  import opened LsAst

  // ----- tags -----

  /** `LogstashCtx`: the options of one compilation and the counter that keeps failure tags apart. */
  class LogstashCtx {
    const verbose: bool
    const disableErrors: bool
    var tagCount: nat

    constructor(verbose: bool, disableErrors: bool)
      ensures this.verbose == verbose && this.disableErrors == disableErrors && tagCount == 0
    {
      this.verbose := verbose;
      this.disableErrors := disableErrors;
      tagCount := 0;
    }

    /** `CreateTag`: counts one more tag and names it after the counter. */
    method CreateTag(name: string) returns (tag: string)
      modifies this
      ensures tagCount == old(tagCount) + 1
      ensures tag == MintTag(name, tagCount)
    {
      tagCount := tagCount + 1;
      var base := name;
      if base == "" {
        base := "_logstash_tag";
      }
      tag := base + "_" + NatToString(tagCount);
    }
  }

  /** The name a tag is minted from: the given one, or `_logstash_tag` when it is empty. */
  function TagBase(name: string): (base: string)
    ensures base != "" && (name != "" ==> base == name)
  {
    if name == "" then "_logstash_tag" else name
  }

  /** The tag `CreateTag(name)` returns when the counter reaches `n`. */
  function MintTag(name: string, n: nat): (tag: string)
    ensures |tag| > |TagBase(name)| + 1 && tag[..|TagBase(name)|] == TagBase(name) && tag[|TagBase(name)|] == '_'
  {
    TagBase(name) + "_" + NatToString(n)
  }

  /** The text after the last underscore. */
  function LastSegment(s: string): (r: string)
    ensures |r| <= |s| && '_' !in r && r == s[|s| - |r|..]
    decreases |s|
  {
    if s == [] || s[|s| - 1] == '_' then [] else LastSegment(s[..|s| - 1]) + [s[|s| - 1]]
  }

  lemma {:induction false} LastSegmentAfter(p: string, d: string)
    requires '_' !in d
    ensures LastSegment(p + "_" + d) == d
    decreases |d|
  {
    var s := p + "_" + d;
    if d == [] {
      assert s[|s| - 1] == '_';
    } else {
      var init := d[..|d| - 1];
      var last := d[|d| - 1];
      assert last != '_';
      assert '_' !in init by {
        assert forall k :: 0 <= k < |init| ==> init[k] == d[k];
      }
      LastSegmentAfter(p, init);
      assert s[..|s| - 1] == p + "_" + init;
      assert s[|s| - 1] == last;
      assert LastSegment(s) == LastSegment(p + "_" + init) + [last];
      assert init + [last] == d;
    }
  }

  /**
   * Tags minted at different counter values differ, whatever names they were
   * minted for: the counter can be read back from the tag.
   */
  lemma MintTagDistinct(a: string, n: nat, b: string, m: nat)
    ensures MintTag(a, n) == MintTag(b, m) ==> n == m
  {
    var base_a := TagBase(a);
    var base_b := TagBase(b);
    if MintTag(a, n) == MintTag(b, m) {
      assert '_' !in NatToString(n) && '_' !in NatToString(m) by {
        DigitsNoUnderscore(NatToString(n));
        DigitsNoUnderscore(NatToString(m));
      }
      LastSegmentAfter(base_a, NatToString(n));
      LastSegmentAfter(base_b, NatToString(m));
      NatToStringInjective(n, m);
    }
  }

  lemma DigitsNoUnderscore(s: string)
    requires forall k :: 0 <= k < |s| ==> IsDigit(s[k])
    ensures '_' !in s
  {
    forall k | 0 <= k < |s|
      ensures s[k] != '_'
    {
      assert IsDigit(s[k]);
    }
  }

  /** The tag a processor mints from counter value `count` unless it ignores failures, and the counter after it. */
  function OptionalTag(skip: bool, name: string, count: nat): (r: (string, nat))
    ensures skip ==> r == ("", count)
    ensures !skip ==> r == (MintTag(name, count + 1), count + 1)
  {
    if skip then ("", count) else (MintTag(name, count + 1), count + 1)
  }

  // ----- filter blocks -----

  /** `FilterBlock`: compiled statements and the tags they set on failure. */
  datatype FilterBlock = FilterBlock(block: Block, failureTags: seq<string>)

  /** The tags after adding `tags` one by one, each only when not already present. */
  function AddUnique(acc: seq<string>, tags: seq<string>): (r: seq<string>)
    decreases |tags|
  {
    if tags == [] then acc
    else AddUnique(if tags[0] in acc then acc else acc + [tags[0]], tags[1..])
  }

  predicate NoDuplicates(s: seq<string>)
  {
    forall i, j :: 0 <= i < j < |s| ==> s[i] != s[j]
  }

  /**
   * Adding tags keeps the existing ones in place, keeps or adds every new
   * one, adds nothing else, and adds no duplicate.
   */
  lemma {:induction false} AddUniqueProperties(acc: seq<string>, tags: seq<string>)
    ensures acc <= AddUnique(acc, tags)
    ensures forall t :: t in AddUnique(acc, tags) <==> t in acc || t in tags
    ensures NoDuplicates(acc) ==> NoDuplicates(AddUnique(acc, tags))
    decreases |tags|
  {
    if tags != [] {
      var next := if tags[0] in acc then acc else acc + [tags[0]];
      AddUniqueProperties(next, tags[1..]);
      assert forall t :: t in tags <==> t == tags[0] || t in tags[1..];
      if NoDuplicates(acc) && tags[0] !in acc {
        assert NoDuplicates(next);
      }
    }
  }

  /** `AddTags`: for each tag, a scan of the current tags; the tag is appended when the scan finds nothing. */
  method AddTags(b: FilterBlock, tags: seq<string>) returns (r: FilterBlock)
    ensures r == b.(failureTags := AddUnique(b.failureTags, tags))
  {
    var current := b.failureTags;
    for i := 0 to |tags|
      invariant AddUnique(current, tags[i..]) == AddUnique(b.failureTags, tags)
    {
      var t := tags[i];
      var present := false;
      for j := 0 to |current|
        invariant present <==> t in current[..j]
      {
        if current[j] == t {
          present := true;
          break;
        }
        assert current[..j + 1] == current[..j] + [current[j]];
      }
      assert present <==> t in current by {
        if !present {
          assert current[..|current|] == current;
        }
      }
      assert tags[i..][1..] == tags[i + 1..];
      if !present {
        current := current + [t];
      }
    }
    assert tags[|tags|..] == [];
    r := b.(failureTags := current);
  }

  /** `AppendBlock`. */
  function AppendBlock(b: FilterBlock, blk: Block): (r: FilterBlock)
    ensures r.failureTags == b.failureTags && |r.block| == |b.block| + |blk|
    ensures r.block[..|b.block|] == b.block && r.block[|b.block|..] == blk
  {
    b.(block := b.block + blk)
  }

  /** `AddFilter`. */
  function AddFilter(b: FilterBlock, f: Statement): (r: FilterBlock)
    ensures r.failureTags == b.failureTags && |r.block| == |b.block| + 1
    ensures r.block[..|b.block|] == b.block && r.block[|b.block|] == f
  {
    b.(block := b.block + [f])
  }

  /** `Append`: the other block's statements after this one's, and its tags merged without duplicates. */
  method Append(b: FilterBlock, other: FilterBlock) returns (r: FilterBlock)
    ensures r.block == b.block + other.block
    ensures b.failureTags <= r.failureTags
    ensures forall t :: t in r.failureTags <==> t in b.failureTags || t in other.failureTags
    ensures NoDuplicates(b.failureTags) ==> NoDuplicates(r.failureTags)
  {
    r := AddTags(AppendBlock(b, other.block), other.failureTags);
    AddUniqueProperties(b.failureTags, other.failureTags);
  }

  // ----- guards -----

  /** The tags of a unit without the empty ones, in order. */
  function NonEmptyTags(tags: seq<string>): (r: seq<string>)
    ensures "" !in r
    ensures forall t :: t in r <==> t in tags && t != ""
  {
    if tags == [] then []
    else NonEmptyTags(tags[..|tags| - 1]) + (if tags[|tags| - 1] == "" then [] else [tags[|tags| - 1]])
  }

  /** Tags that are all non-empty are kept as they are. */
  lemma {:induction false} NonEmptyTagsKeeps(tags: seq<string>)
    requires "" !in tags
    ensures NonEmptyTags(tags) == tags
  {
    if tags != [] {
      var init := tags[..|tags| - 1];
      assert "" !in init by {
        assert forall t :: t in init ==> t in tags;
      }
      NonEmptyTagsKeeps(init);
      assert init + [tags[|tags| - 1]] == tags;
    }
  }

  /** One disjunct of the guard: the event carries `tag`. */
  function TagTest(tag: string): string
  {
    "(\"" + tag + "\" in [tags])"
  }

  /** `makeLSFailTagsCondition`: one test per tag, joined by `or`; empty without tags. */
  function FailTagsCondition(tags: seq<string>): (c: string)
    ensures c == "" <==> tags == []
  {
    if tags == [] then ""
    else
      var tests := seq(|tags|, i requires 0 <= i < |tags| => TagTest(tags[i]));
      JoinNonEmpty(tests, "or");
      Join(tests, "or")
  }

  lemma JoinNonEmpty(parts: seq<string>, sep: string)
    requires |parts| >= 1 && parts[0] != ""
    ensures Join(parts, sep) != ""
  {
    if |parts| > 1 {
      assert Join(parts, sep) == parts[0] + sep + Join(parts[1..], sep);
    }
  }

  const TestClose: string := "\" in [tags])"

  /** Reads a guard back into its tags: a sequence of tag tests separated by `or`. */
  function ParseTests(c: string): Option<seq<string>>
    decreases |c|
  {
    if |c| < 2 || c[..2] != "(\"" then None
    else
      var rest := c[2..];
      var j := IndexOf(rest, '"');
      if j < 0 then None
      else
        var after := rest[j..];
        if |after| < |TestClose| || after[..|TestClose|] != TestClose then None
        else
          var more := after[|TestClose|..];
          if more == [] then Some([rest[..j]])
          else if |more| < 2 || more[..2] != "or" then None
          else
            match ParseTests(more[2..])
            case Some(ts) => Some([rest[..j]] + ts)
            case None => None
  }

  function ParseFailTagsCondition(c: string): Option<seq<string>>
  {
    if c == "" then Some([]) else ParseTests(c)
  }

  /** How a text starting with one test splits into the tag and what follows the test. */
  lemma TestPieces(t: string, more: string)
    requires '"' !in t
    ensures var c := TagTest(t) + more;
      |c| >= 2 && c[..2] == "(\"" && IndexOf(c[2..], '"') == |t|
      && c[2..][..|t|] == t && c[2..][|t|..] == TestClose + more
  {
    var c := TagTest(t) + more;
    assert c == "(\"" + t + TestClose + more;
    assert c[..2] == "(\"";
    var rest := c[2..];
    assert rest == t + TestClose + more;
    assert rest == t + ['"'] + (TestClose[1..] + more);
    IndexOfAfterFree(t, '"', TestClose[1..] + more);
  }

  lemma ParseOneTest(t: string, more: string)
    requires '"' !in t
    ensures ParseTests(TagTest(t) + more) ==
      if more == [] then Some([t])
      else if |more| < 2 || more[..2] != "or" then None
      else match ParseTests(more[2..])
        case Some(ts) => Some([t] + ts)
        case None => None
  {
    TestPieces(t, more);
    var after := TestClose + more;
    assert after[..|TestClose|] == TestClose;
    assert after[|TestClose|..] == more;
  }

  /** A guard over several tags is the first tag's test, `or`, and the guard over the rest. */
  lemma FailTagsConditionCons(tags: seq<string>)
    requires |tags| >= 2
    ensures FailTagsCondition(tags) == TagTest(tags[0]) + ("or" + FailTagsCondition(tags[1..]))
  {
    var tests := seq(|tags|, i requires 0 <= i < |tags| => TagTest(tags[i]));
    var tail := tags[1..];
    var tailTests := seq(|tail|, i requires 0 <= i < |tail| => TagTest(tail[i]));
    assert tests[1..] == tailTests;
    assert Join(tests, "or") == TagTest(tags[0]) + "or" + Join(tailTests, "or");
  }

  /** A guard over one tag is that tag's test. */
  lemma FailTagsConditionSingle(t: string)
    ensures FailTagsCondition([t]) == TagTest(t)
  {
    var tests := seq(1, i requires 0 <= i < 1 => TagTest([t][i]));
    assert tests == [TagTest(t)];
  }

  /**
   * The guard holds exactly one test per tag, in order: reading it back gives
   * the tags (when no tag contains a double quote).
   */
  lemma {:induction false} FailTagsConditionRoundTrip(tags: seq<string>)
    requires forall k :: 0 <= k < |tags| ==> '"' !in tags[k]
    ensures ParseFailTagsCondition(FailTagsCondition(tags)) == Some(tags)
    decreases |tags|
  {
    if |tags| == 1 {
      RoundTripSingle(tags[0]);
      assert tags == [tags[0]];
    } else if |tags| >= 2 {
      var tail := tags[1..];
      FailTagsConditionRoundTrip(tail);
      RoundTripCons(tags[0], tail);
      assert [tags[0]] + tail == tags;
    }
  }

  lemma RoundTripSingle(t: string)
    requires '"' !in t
    ensures ParseFailTagsCondition(FailTagsCondition([t])) == Some([t])
  {
    FailTagsConditionSingle(t);
    ParseOneTest(t, "");
    assert TagTest(t) + "" == TagTest(t);
  }

  lemma RoundTripCons(t: string, tail: seq<string>)
    requires '"' !in t && tail != []
    requires ParseFailTagsCondition(FailTagsCondition(tail)) == Some(tail)
    ensures ParseFailTagsCondition(FailTagsCondition([t] + tail)) == Some([t] + tail)
  {
    var tags := [t] + tail;
    assert tags[1..] == tail;
    FailTagsConditionCons(tags);
    var joined := FailTagsCondition(tail);
    ParseOneTest(t, "or" + joined);
    assert ("or" + joined)[..2] == "or" && ("or" + joined)[2..] == joined;
  }

  // ----- error handlers -----

  /** The `mutate` that sets `tags`. */
  function AddTagFilter(tags: seq<string>): Statement
  {
    Filter("mutate", map["add_tag" := StrList(tags)])
  }

  /** The `mutate` that clears `tags`. */
  function RemoveTagFilter(tags: seq<string>): Statement
  {
    Filter("mutate", map["remove_tag" := StrList(tags)])
  }

  /**
   * `MakeRuby`: a `ruby` filter running `code` with the `extra` parameters
   * overriding, preceded by a `mutate` setting `failureTag` when one is given.
   */
  function MakeRuby(code: string, failureTag: string, extra: Params): (b: Block)
    ensures |b| == if failureTag == "" then 1 else 2
    ensures failureTag != "" ==> b[0] == AddTagFilter([failureTag])
    ensures b[|b| - 1].Filter? && b[|b| - 1].name == "ruby"
    ensures b[|b| - 1].params.Keys == {"code"} + extra.Keys
    ensures forall k :: k in extra ==> b[|b| - 1].params[k] == extra[k]
    ensures "code" !in extra ==> b[|b| - 1].params["code"] == Str(code)
  {
    var params := map["code" := Str(code)] + extra;
    (if failureTag != "" then [AddTagFilter([failureTag])] else []) + [Filter("ruby", params)]
  }

  /** `%v` of a string slice: the elements between brackets, separated by blanks. */
  function ShowList(tags: seq<string>): string
  {
    "[" + Join(tags, " ") + "]"
  }

  /** The message the error reporter appends to `[error][message]`. */
  function ErrorMessage(filter: string, tags: seq<string>): string
  {
    "filter " + filter + " (tags: " + ShowList(tags) + ") failed"
  }

  /** The closure `MakeLSErrorReporter` returns: a Ruby snippet recording the failure, and no tags. */
  function ReportError(filter: string, tags: seq<string>): (r: FilterBlock)
    ensures r.failureTags == [] && |r.block| == 1
    ensures r.block[0].Filter? && r.block[0].name == "ruby" && r.block[0].params.Keys == {"code"}
  {
    var msg := ErrorMessage(filter, tags);
    var code := "msg='" + msg + "'; field='[error][message]'; old=event.get(field); "
      + "event.set(field, old ? [event.get(field), msg].join(' : ') : msg)";
    FilterBlock(MakeRuby(code, "", map[]), [])
  }

  /**
   * The `onError` callbacks of the source: the error reporter of the top
   * level, or the closure of a `select` processor that tags the event with
   * the select's own failure tag.
   */
  datatype ErrorPolicy = Reporter | SelectTagger(tag: string)

  function OnError(policy: ErrorPolicy, filter: string, tags: seq<string>): (r: FilterBlock)
    ensures policy.Reporter? ==> r == ReportError(filter, tags)
    ensures policy.SelectTagger? ==> r.failureTags == [policy.tag] && r.block == [AddTagFilter([policy.tag])]
  {
    match policy
    case Reporter => ReportError(filter, tags)
    case SelectTagger(tag) => FilterBlock([AddTagFilter([tag])], [tag])
  }

  // ----- linking -----

  /**
   * `conds[i]`: for a unit that can fail (and unless errors are disabled), a
   * one-arm conditional on its guard that clears its tags and runs the error
   * handler; otherwise a conditional without arms.
   */
  function FailureHandler(b: FilterBlock, name: string, policy: ErrorPolicy, disableErrors: bool): (c: Statement)
    ensures c.Conditional? && c.elseBlock == []
    ensures |c.cases| == 0 <==> disableErrors || b.failureTags == []
    ensures |c.cases| > 0 ==> |c.cases| == 1 && c.cases[0].cond == FailTagsCondition(b.failureTags)
    ensures |c.cases| > 0 ==> c.cases[0].body == [RemoveTagFilter(b.failureTags)] + OnError(policy, name, b.failureTags).block
  {
    var guard := FailTagsCondition(b.failureTags);
    if disableErrors || guard == "" then Conditional([], [])
    else Conditional([Case(guard, [RemoveTagFilter(b.failureTags)] + OnError(policy, name, b.failureTags).block)], [])
  }

  function Handlers(blks: seq<FilterBlock>, names: seq<string>, policy: ErrorPolicy, disableErrors: bool): (cs: seq<Statement>)
    requires |names| == |blks|
    ensures |cs| == |blks|
    ensures forall i :: 0 <= i < |blks| ==> cs[i] == FailureHandler(blks[i], names[i], policy, disableErrors)
  {
    seq(|blks|, i requires 0 <= i < |blks| => FailureHandler(blks[i], names[i], policy, disableErrors))
  }

  /** Whether a handler guards its unit. */
  predicate Guarded(c: Statement)
  {
    c.Conditional? && |c.cases| > 0
  }

  /**
   * The bottom-up linking of units: an unguarded unit runs before the rest;
   * a guarded unit runs, then its handler, whose `else` branch is the rest.
   */
  function Link(blks: seq<FilterBlock>, conds: seq<Statement>): Block
    requires |conds| == |blks|
    decreases |blks|
  {
    if blks == [] then []
    else if Guarded(conds[0]) then blks[0].block + [conds[0].(elseBlock := Link(blks[1..], conds[1..]))]
    else blks[0].block + Link(blks[1..], conds[1..])
  }

  /** The tags the error handlers of the guarded units set, in order. */
  function HandlerTags(blks: seq<FilterBlock>, names: seq<string>, policy: ErrorPolicy, disableErrors: bool): seq<string>
    requires |names| == |blks|
    decreases |blks|
  {
    if blks == [] then []
    else
      var n := |blks| - 1;
      HandlerTags(blks[..n], names[..n], policy, disableErrors)
      + (if Guarded(FailureHandler(blks[n], names[n], policy, disableErrors))
         then OnError(policy, names[n], blks[n].failureTags).failureTags else [])
  }

  /** All statements of the units, in order. */
  function Flatten(blks: seq<FilterBlock>): Block
  {
    if blks == [] then [] else blks[0].block + Flatten(blks[1..])
  }

  /** Without guarded units, linking is concatenation. */
  lemma {:induction false} LinkUnguarded(blks: seq<FilterBlock>, conds: seq<Statement>)
    requires |conds| == |blks|
    requires forall i :: 0 <= i < |conds| ==> !Guarded(conds[i])
    ensures Link(blks, conds) == Flatten(blks)
    decreases |blks|
  {
    if blks != [] {
      LinkUnguarded(blks[1..], conds[1..]);
    }
  }

  /** With errors disabled, no handler guards anything and no handler tag is reported. */
  lemma {:induction false} DisabledErrors(blks: seq<FilterBlock>, names: seq<string>, policy: ErrorPolicy)
    requires |names| == |blks|
    ensures Link(blks, Handlers(blks, names, policy, true)) == Flatten(blks)
    ensures HandlerTags(blks, names, policy, true) == []
    decreases |blks|
  {
    LinkUnguarded(blks, Handlers(blks, names, policy, true));
    if blks != [] {
      var n := |blks| - 1;
      DisabledErrors(blks[..n], names[..n], policy);
    }
  }

  /** The top-level reporter sets no tags, so nothing is reported upwards. */
  lemma {:induction false} ReporterTags(blks: seq<FilterBlock>, names: seq<string>, disableErrors: bool)
    requires |names| == |blks|
    ensures HandlerTags(blks, names, Reporter, disableErrors) == []
    decreases |blks|
  {
    if blks != [] {
      var n := |blks| - 1;
      ReporterTags(blks[..n], names[..n], disableErrors);
    }
  }

  /**
   * Under a `select`, the tags reported upwards are the select tag only,
   * once per guarded unit, and there is at least one exactly when some unit
   * can fail (unless errors are disabled).
   */
  lemma SelectTags(blks: seq<FilterBlock>, names: seq<string>, tag: string, disableErrors: bool)
    requires |names| == |blks|
    ensures forall t :: t in HandlerTags(blks, names, SelectTagger(tag), disableErrors) ==> t == tag
    ensures HandlerTags(blks, names, SelectTagger(tag), disableErrors) != []
      <==> !disableErrors && exists i :: 0 <= i < |blks| && blks[i].failureTags != []
  {
    SelectTagsOnly(blks, names, tag, disableErrors);
    SelectTagsNonEmpty(blks, names, tag, disableErrors);
  }

  lemma {:induction false} SelectTagsOnly(blks: seq<FilterBlock>, names: seq<string>, tag: string, disableErrors: bool)
    requires |names| == |blks|
    ensures forall t :: t in HandlerTags(blks, names, SelectTagger(tag), disableErrors) ==> t == tag
    decreases |blks|
  {
    if blks != [] {
      var n := |blks| - 1;
      SelectTagsOnly(blks[..n], names[..n], tag, disableErrors);
    }
  }

  lemma {:induction false} SelectTagsNonEmpty(blks: seq<FilterBlock>, names: seq<string>, tag: string, disableErrors: bool)
    requires |names| == |blks|
    ensures HandlerTags(blks, names, SelectTagger(tag), disableErrors) != []
      <==> !disableErrors && exists i :: 0 <= i < |blks| && blks[i].failureTags != []
    decreases |blks|
  {
    if blks != [] {
      var n := |blks| - 1;
      var init := blks[..n];
      SelectTagsNonEmpty(init, names[..n], tag, disableErrors);
      var rest := HandlerTags(init, names[..n], SelectTagger(tag), disableErrors);
      if !disableErrors && rest == [] && blks[n].failureTags == [] {
        forall i | 0 <= i < |blks|
          ensures blks[i].failureTags == []
        {
          if i < n {
            assert init[i] == blks[i];
            assert !(init[i].failureTags != []);
          }
        }
      }
      if !disableErrors && rest != [] {
        var i :| 0 <= i < n && init[i].failureTags != [];
        assert blks[i] == init[i];
      }
    }
  }

  /** Linked well-formed units with their handlers form a well-formed block. */
  lemma {:induction false} LinkWellFormed(blks: seq<FilterBlock>, names: seq<string>, policy: ErrorPolicy, disableErrors: bool)
    requires |names| == |blks|
    requires forall i :: 0 <= i < |blks| ==> WellFormedBlock(blks[i].block)
    ensures WellFormedBlock(Link(blks, Handlers(blks, names, policy, disableErrors)))
    decreases |blks|
  {
    if blks != [] {
      var cs := Handlers(blks, names, policy, disableErrors);
      assert Handlers(blks[1..], names[1..], policy, disableErrors) == cs[1..];
      LinkWellFormed(blks[1..], names[1..], policy, disableErrors);
      var rest := Link(blks[1..], cs[1..]);
      if Guarded(cs[0]) {
        HandlerWellFormed(blks[0], names[0], policy, disableErrors);
        var c := cs[0].(elseBlock := rest);
        assert c == Conditional(cs[0].cases, rest);
        ConditionalWellFormed(cs[0].cases, rest);
        WellFormedConcat(blks[0].block, [c]);
      } else {
        WellFormedConcat(blks[0].block, rest);
      }
    }
  }

  lemma HandlerWellFormed(b: FilterBlock, name: string, policy: ErrorPolicy, disableErrors: bool)
    ensures forall j :: 0 <= j < |FailureHandler(b, name, policy, disableErrors).cases| ==>
      WellFormedBlock(FailureHandler(b, name, policy, disableErrors).cases[j].body)
  {
    var c := FailureHandler(b, name, policy, disableErrors);
    if |c.cases| > 0 {
      var e := OnError(policy, name, b.failureTags);
      assert WellFormed(RemoveTagFilter(b.failureTags));
      assert WellFormedBlock(e.block) by {
        if policy.Reporter? {
          assert WellFormed(e.block[0]);
        } else {
          assert WellFormed(e.block[0]);
        }
      }
      WellFormedConcat([RemoveTagFilter(b.failureTags)], e.block);
    }
  }
}
