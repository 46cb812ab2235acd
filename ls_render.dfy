/**
 * What the Logstash printer (prog/ls/format.go and the `format` methods of
 * prog/ls/filter.go) writes, as a pure function. Every printing action is an
 * `Op`; `Run` interprets a list of them against the printer state: the text
 * written so far, the "indent required" flag and the indentation depth.
 * The imperative printer in `LsFormat` is proved to follow these functions.
 */
module LsRender {
  import opened Values
  import opened Strs
  import opened LsAst

  /** One indentation level (`Serialize` sets `indent: "    "`). */
  const IndentUnit: string := "    "

  /** Indentation string at `depth` levels. */
  function Ind(depth: nat): string
  {
    if depth == 0 then "" else Ind(depth - 1) + IndentUnit
  }

  /** The first `cap` characters of `s`: what a writer with room for `cap` characters keeps. */
  function Trunc(s: string, cap: nat): (r: string)
    ensures |r| == if |s| <= cap then |s| else cap
    ensures r <= s
  {
    if |s| <= cap then s else s[..cap]
  }

  lemma TruncAppend(x: string, y: string, cap: nat)
    ensures Trunc(Trunc(x, cap) + y, cap) == Trunc(x + y, cap)
  {
    if |x| > cap {
      assert (x + y)[..cap] == x[..cap];
      assert (x[..cap] + y)[..cap] == x[..cap];
    } else if |x + y| > cap {
      assert Trunc(x, cap) == x;
    }
  }

  /** Once more than `cap` characters are written, what the writer keeps no longer changes. */
  lemma TruncExtend(x: string, y: string, cap: nat)
    requires |x| > cap
    ensures Trunc(x + y, cap) == Trunc(x, cap)
  {
    assert (x + y)[..cap] == x[..cap];
  }

  /**
   * `doWriteString`: a chunk is preceded by the indentation when an indent is
   * pending, unless the chunk is a bare newline.
   */
  function Emit(ir: bool, depth: nat, s: string): string
  {
    if ir && s != "\n" then Ind(depth) + s else s
  }

  /**
   * What `formatCtx.Write` emits, character by character: the first character
   * of a line is preceded by the indentation when an indent is pending, except
   * when the line is empty; a newline leaves an indent pending, any other
   * character clears it. Returns the emitted text and the new flag.
   * (The source cuts the text into lines; `LayoutLine` and `LayoutNoNewline`
   * show the two descriptions agree.)
   */
  function Layout(ir: bool, depth: nat, s: string): (r: (string, bool))
    decreases |s|
  {
    if s == [] then ("", ir)
    else
      var rest := Layout(s[0] == '\n', depth, s[1..]);
      ((if ir && s[0] != '\n' then Ind(depth) else "") + [s[0]] + rest.0, rest.1)
  }

  /** Printing actions. */
  datatype Op =
    | Write(s: string)      // formatCtx.Write (Printf, Println)
    | Chunk(s: string)      // formatCtx.doWriteString, bypassing the line logic
    | Indent                // increaseIndent
    | Dedent                // decreaseIndent
    | Nest(body: seq<Op>)   // withIndent: one level deeper, then the old indentation back

  /** Printer state: text written, indent pending, indentation depth. */
  datatype St = St(text: string, ir: bool, depth: nat)

  function Step(st: St, op: Op): St
    decreases op
  {
    match op
    case Write(s) =>
      var r := Layout(st.ir, st.depth, s);
      St(st.text + r.0, r.1, st.depth)
    case Chunk(s) => St(st.text + Emit(st.ir, st.depth, s), st.ir, st.depth)
    case Indent => st.(depth := st.depth + 1)
    case Dedent => st.(depth := if st.depth > 0 then st.depth - 1 else 0)
    case Nest(body) =>
      var r := Run(st.(depth := st.depth + 1), body);
      r.(depth := st.depth)
  }

  function Run(st: St, ops: seq<Op>): St
    decreases ops
  {
    if ops == [] then st else Run(Step(st, ops[0]), ops[1..])
  }

  /** Running two lists of actions one after the other is running their concatenation. */
  lemma {:induction false} RunAppend(st: St, a: seq<Op>, b: seq<Op>)
    ensures Run(st, a + b) == Run(Run(st, a), b)
    decreases a
  {
    if a == [] {
      assert a + b == b;
    } else {
      assert (a + b)[0] == a[0];
      assert (a + b)[1..] == a[1..] + b;
      RunAppend(Step(st, a[0]), a[1..], b);
    }
  }

  /** Printing only appends: the text before does not influence what is added. */
  lemma {:induction false} RunExtends(st: St, ops: seq<Op>)
    ensures Run(st, ops).text == st.text + Run(st.(text := ""), ops).text
    ensures Run(st, ops).ir == Run(st.(text := ""), ops).ir
    ensures Run(st, ops).depth == Run(st.(text := ""), ops).depth
    decreases ops
  {
    if ops != [] {
      var s1 := Step(st, ops[0]);
      var e1 := Step(st.(text := ""), ops[0]);
      StepExtends(st, ops[0]);
      RunExtends(s1, ops[1..]);
      RunExtends(e1, ops[1..]);
      assert s1.(text := "") == e1.(text := "");
    }
  }

  lemma {:induction false} StepExtends(st: St, op: Op)
    ensures Step(st, op).text == st.text + Step(st.(text := ""), op).text
    ensures Step(st, op).ir == Step(st.(text := ""), op).ir
    ensures Step(st, op).depth == Step(st.(text := ""), op).depth
    decreases op
  {
    if op.Nest? {
      RunExtends(st.(depth := st.depth + 1), op.body);
      assert st.(depth := st.depth + 1).(text := "") == st.(text := "").(depth := st.depth + 1);
    }
  }

  /** At depth 0 nothing is indented: `Write` emits its text unchanged. */
  lemma {:induction false} LayoutFlat(ir: bool, s: string)
    ensures Layout(ir, 0, s).0 == s
    decreases |s|
  {
    if s != [] {
      LayoutFlat(s[0] == '\n', s[1..]);
      assert [s[0]] + s[1..] == s;
    }
  }

  /**
   * Two consecutive `Write`s print exactly what one `Write` of the joined text
   * prints: splitting a `Printf` never changes the output or the pending indent.
   */
  lemma {:induction false} LayoutAppend(ir: bool, depth: nat, a: string, b: string)
    ensures Layout(ir, depth, a + b).0 ==
      Layout(ir, depth, a).0 + Layout(Layout(ir, depth, a).1, depth, b).0
    ensures Layout(ir, depth, a + b).1 == Layout(Layout(ir, depth, a).1, depth, b).1
    decreases |a|
  {
    if a == [] {
      assert a + b == b;
    } else {
      var c, t := a[0], a[1..];
      assert a == [c] + t;
      assert a + b == [c] + (t + b);
      LayoutCons(ir, depth, c, t);
      LayoutCons(ir, depth, c, t + b);
      LayoutAppend(c == '\n', depth, t, b);
      var pre := if ir && c != '\n' then Ind(depth) else "";
      var ra := Layout(c == '\n', depth, t);
      var rb := Layout(ra.1, depth, b);
      AppendAssoc(pre + [c], ra.0, rb.0);
    }
  }

  /** `Layout` of a text, read from its first character. */
  lemma LayoutCons(ir: bool, depth: nat, c: char, s: string)
    ensures Layout(ir, depth, [c] + s) ==
      ((if ir && c != '\n' then Ind(depth) else "") + [c] + Layout(c == '\n', depth, s).0,
       Layout(c == '\n', depth, s).1)
  {
    assert ([c] + s)[0] == c;
    assert ([c] + s)[1..] == s;
  }

  /** A piece without a newline is emitted with `Emit` and clears the pending indent. */
  lemma {:induction false} LayoutNoNewline(ir: bool, depth: nat, s: string)
    requires s != [] && '\n' !in s
    ensures Layout(ir, depth, s).0 == Emit(ir, depth, s)
    ensures Layout(ir, depth, s).1 == false
    decreases |s|
  {
    var tail := s[1..];
    var rest := Layout(false, depth, tail);
    var pre := if ir then Ind(depth) else "";
    assert s[0] != '\n';
    assert Layout(ir, depth, s) == (pre + [s[0]] + rest.0, rest.1);
    if tail == [] {
      assert rest == ("", false);
    } else {
      assert '\n' !in tail by {
        assert forall k :: 0 <= k < |tail| ==> tail[k] == s[k + 1];
      }
      LayoutNoNewline(false, depth, tail);
      assert rest.0 == tail;
    }
    assert pre + [s[0]] + rest.0 == pre + s;
    assert s != "\n";
  }

  /**
   * The line-by-line reading of `Write`: a line is emitted with `Emit` and
   * leaves an indent pending for the rest.
   */
  lemma {:induction false} LayoutLine(ir: bool, depth: nat, pre: string, tail: string)
    requires '\n' !in pre
    ensures Layout(ir, depth, pre + "\n" + tail).0 == Emit(ir, depth, pre + "\n") + Layout(true, depth, tail).0
    ensures Layout(ir, depth, pre + "\n" + tail).1 == Layout(true, depth, tail).1
    decreases |pre|
  {
    if pre == [] {
      assert pre + "\n" + tail == ['\n'] + tail;
      LayoutCons(ir, depth, '\n', tail);
    } else {
      var c, rest := pre[0], pre[1..];
      assert pre + "\n" + tail == [c] + (rest + "\n" + tail);
      assert pre + "\n" == [c] + (rest + "\n");
      assert '\n' !in rest by {
        assert forall k :: 0 <= k < |rest| ==> rest[k] == pre[k + 1];
      }
      LayoutCons(ir, depth, c, rest + "\n" + tail);
      LayoutLine(false, depth, rest, tail);
      var p := if ir then Ind(depth) else "";
      AppendAssoc(p + [c], rest + "\n", Layout(true, depth, tail).0);
      AppendAssoc(p, [c], rest + "\n");
    }
  }

  // ----- what the parameter printer emits -----

  /** The order in which the map walk visits the keys of an object (Go leaves it unspecified). */
  type KeyOrder = map<string, Value> -> seq<string>

  /** `ks` lists every element of `keys` exactly once, and nothing else. */
  ghost predicate Enumerates(ks: seq<string>, keys: set<string>)
  {
    (forall i, j :: 0 <= i < j < |ks| ==> ks[i] != ks[j])
    && (forall k :: k in ks <==> k in keys)
  }

  /** What the map walk promises whatever its order: each key of the object is visited once. */
  ghost predicate ValidOrder(ko: KeyOrder)
  {
    forall m: map<string, Value> :: Enumerates(ko(m), m.Keys)
  }

  /** `%v` of a scalar parameter; strings are quoted, nil is an empty string literal. */
  function Lit(v: Value): string
  {
    match v
    case Nil => "\"\""
    case Str(s) => Quote(s)
    case Bool(b) => if b then "true" else "false"
    case Int(i) => IntToString(i)
    case _ => ""
  }

  /** `tryElemNext`: every array element but the first is preceded by `,\n`. */
  function Sep(inArray: bool, first: bool): seq<Op>
  {
    if inArray && !first then [Chunk(",\n")] else []
  }

  /**
   * `OnKey`: keys below the top-level object, and keys that look like field
   * references, are quoted. `level` is the depth of the printer's array stack.
   */
  function KeyText(k: string, level: nat): string
  {
    if level > 1 || (|k| > 0 && k[0] == '[' && k[|k| - 1] == ']') then Quote(k) else k
  }

  /**
   * The actions `gotype.Fold` triggers for `v` through the parameter printer,
   * given whether it sits in an array, whether it is the array's first
   * element and the depth of the array stack.
   */
  function ValueOps(v: Value, inArray: bool, first: bool, level: nat, ko: KeyOrder): seq<Op>
    decreases v, 1
  {
    match v
    case Obj(m) =>
      Sep(inArray, first) + [Write("{"), Indent] + MembersOps(m, ko(m), level + 1, ko)
      + [Dedent, Write("\n}\n")]
    case Arr(a) =>
      Sep(inArray, first) + [Write("[\n"), Indent] + ElemsOps(a, |a|, level + 1, ko)
      + [Dedent, Write("\n]")]
    case _ => Sep(inArray, first) + [Write(Lit(v))]
  }

  /** The members of an object, in the visiting order `ks`. */
  function MembersOps(m: map<string, Value>, ks: seq<string>, level: nat, ko: KeyOrder): seq<Op>
    decreases Obj(m), 0, |ks|
  {
    if ks == [] then []
    else
      var k := ks[|ks| - 1];
      MembersOps(m, ks[..|ks| - 1], level, ko)
      + (if k in m then [Write("\n" + KeyText(k, level) + " => ")] + ValueOps(m[k], false, true, level, ko)
         else [])
  }

  /** The first `n` elements of an array. */
  function ElemsOps(a: seq<Value>, n: nat, level: nat, ko: KeyOrder): seq<Op>
    requires n <= |a|
    decreases Arr(a), 0, n
  {
    if n == 0 then [] else ElemsOps(a, n - 1, level, ko) + ValueOps(a[n - 1], true, n == 1, level, ko)
  }

  /** `Filter.format`: `name {}` without parameters, else the name and the parameter object. */
  function FilterOps(name: string, params: Params, ko: KeyOrder): seq<Op>
  {
    if |params| == 0 then [Write(name + " {}")]
    else [Write(name + " ")] + ValueOps(Obj(params), false, false, 0, ko)
  }

  /** `Statement.format`. */
  function StmtOps(s: Statement, ko: KeyOrder): seq<Op>
    decreases s, 1
  {
    match s
    case Filter(name, params) => FilterOps(name, params, ko)
    case Nested(b) => BlockOps(b, ko)
    case Conditional(cases, els) =>
      if |cases| == 0 then []
      else
        [Write("if " + cases[0].cond + " {\n"), Nest(BlockOps(cases[0].body, ko))]
        + ArmsOps(s, |cases|, ko)
        + (if |els| > 0 then [Write("} else {\n"), Nest(BlockOps(els, ko))] else [])
        + [Write("}\n")]
  }

  /** The `elif` arms among the first `n` cases of a conditional. */
  function ArmsOps(s: Statement, n: nat, ko: KeyOrder): seq<Op>
    requires s.Conditional? && n <= |s.cases|
    decreases s, 0, n
  {
    if n <= 1 then []
    else
      ArmsOps(s, n - 1, ko)
      + [Write("} elif " + s.cases[n - 1].cond + " {\n"), Nest(BlockOps(s.cases[n - 1].body, ko))]
  }

  /** `Block.format`: the statements one after the other. */
  function BlockOps(b: Block, ko: KeyOrder): seq<Op>
    decreases b, 2
  {
    if b == [] then [] else BlockOps(b[..|b| - 1], ko) + StmtOps(b[|b| - 1], ko)
  }

  // ----- indentation is balanced -----

  /** A list of actions that ends at the indentation depth it started at. */
  ghost predicate Balanced(ops: seq<Op>)
  {
    forall st :: Run(st, ops).depth == st.depth
  }

  lemma RunOne(st: St, a: Op)
    ensures Run(st, [a]) == Step(st, a)
  {
    assert [a][1..] == [];
  }

  lemma RunTriple(st: St, a: Op, b: Op, c: Op)
    ensures Run(st, [a, b, c]) == Step(Step(Step(st, a), b), c)
  {
    assert [a, b, c][1..] == [b, c];
    RunPair(Step(st, a), b, c);
  }

  lemma RunPair(st: St, a: Op, b: Op)
    ensures Run(st, [a, b]) == Step(Step(st, a), b)
  {
    assert [a, b][1..] == [b];
    assert Run(st, [a, b]) == Run(Step(st, a), [b]);
    assert [b][1..] == [];
    assert Run(Step(st, a), [b]) == Run(Step(Step(st, a), b), []);
  }

  lemma BalancedAppend(a: seq<Op>, b: seq<Op>)
    requires Balanced(a) && Balanced(b)
    ensures Balanced(a + b)
  {
    forall st ensures Run(st, a + b).depth == st.depth {
      RunAppend(st, a, b);
    }
  }

  lemma BalancedText(ops: seq<Op>)
    requires forall k :: 0 <= k < |ops| ==> ops[k].Write? || ops[k].Chunk? || ops[k].Nest?
    ensures Balanced(ops)
    decreases |ops|
  {
    if ops != [] {
      BalancedText(ops[1..]);
    }
  }

  lemma BalancedWrapped(open: Op, x: seq<Op>, close: Op)
    requires open.Write? && close.Write? && Balanced(x)
    ensures Balanced([open, Indent] + x + [Dedent, close])
  {
    forall st ensures Run(st, [open, Indent] + x + [Dedent, close]).depth == st.depth {
      RunAppend(st, [open, Indent], x + [Dedent, close]);
      assert [open, Indent] + x + [Dedent, close] == [open, Indent] + (x + [Dedent, close]);
      RunPair(st, open, Indent);
      var s1 := Run(st, [open, Indent]);
      RunAppend(s1, x, [Dedent, close]);
      RunPair(Run(s1, x), Dedent, close);
    }
  }

  lemma BalancedSep(inArray: bool, first: bool)
    ensures Balanced(Sep(inArray, first))
  {
    BalancedText(Sep(inArray, first));
  }

  lemma {:induction false} ValueOpsBalanced(v: Value, inArray: bool, first: bool, level: nat, ko: KeyOrder)
    ensures Balanced(ValueOps(v, inArray, first, level, ko))
    decreases v, 1
  {
    var sep := Sep(inArray, first);
    BalancedSep(inArray, first);
    match v
    case Obj(m) =>
      var inner := MembersOps(m, ko(m), level + 1, ko);
      MembersBalanced(m, ko(m), level + 1, ko);
      BalancedWrapped(Write("{"), inner, Write("\n}\n"));
      BalancedAppend(sep, [Write("{"), Indent] + inner + [Dedent, Write("\n}\n")]);
      assert ValueOps(v, inArray, first, level, ko) ==
        sep + ([Write("{"), Indent] + inner + [Dedent, Write("\n}\n")]);
    case Arr(a) =>
      var inner := ElemsOps(a, |a|, level + 1, ko);
      ElemsBalanced(a, |a|, level + 1, ko);
      BalancedWrapped(Write("[\n"), inner, Write("\n]"));
      BalancedAppend(sep, [Write("[\n"), Indent] + inner + [Dedent, Write("\n]")]);
      assert ValueOps(v, inArray, first, level, ko) ==
        sep + ([Write("[\n"), Indent] + inner + [Dedent, Write("\n]")]);
    case _ =>
      BalancedText([Write(Lit(v))]);
      BalancedAppend(sep, [Write(Lit(v))]);
  }

  lemma {:induction false} MembersBalanced(m: map<string, Value>, ks: seq<string>, level: nat, ko: KeyOrder)
    ensures Balanced(MembersOps(m, ks, level, ko))
    decreases Obj(m), 0, |ks|
  {
    if ks == [] {
      BalancedText([]);
    } else {
      var k := ks[|ks| - 1];
      var init := MembersOps(m, ks[..|ks| - 1], level, ko);
      MembersBalanced(m, ks[..|ks| - 1], level, ko);
      if k in m {
        var w := [Write("\n" + KeyText(k, level) + " => ")];
        var vo := ValueOps(m[k], false, true, level, ko);
        BalancedText(w);
        ValueOpsBalanced(m[k], false, true, level, ko);
        BalancedAppend(w, vo);
        BalancedAppend(init, w + vo);
      } else {
        assert MembersOps(m, ks, level, ko) == init + [];
        assert init + [] == init;
      }
    }
  }

  lemma {:induction false} ElemsBalanced(a: seq<Value>, n: nat, level: nat, ko: KeyOrder)
    requires n <= |a|
    ensures Balanced(ElemsOps(a, n, level, ko))
    decreases Arr(a), 0, n
  {
    if n == 0 {
      BalancedText([]);
    } else {
      ElemsBalanced(a, n - 1, level, ko);
      ValueOpsBalanced(a[n - 1], true, n == 1, level, ko);
      BalancedAppend(ElemsOps(a, n - 1, level, ko), ValueOps(a[n - 1], true, n == 1, level, ko));
    }
  }

  /** Printing a statement leaves the indentation where it was. */
  lemma {:induction false} StmtOpsBalanced(s: Statement, ko: KeyOrder)
    ensures Balanced(StmtOps(s, ko))
    decreases s, 1
  {
    match s
    case Filter(name, params) =>
      var w := [Write(name + " ")];
      BalancedText(w);
      if |params| > 0 {
        ValueOpsBalanced(Obj(params), false, false, 0, ko);
        BalancedAppend(w, ValueOps(Obj(params), false, false, 0, ko));
      } else {
        BalancedText([Write(name + " {}")]);
      }
    case Nested(b) => BlockOpsBalanced(b, ko);
    case Conditional(cases, els) =>
      if |cases| == 0 {
        BalancedText([]);
      } else {
        var head := [Write("if " + cases[0].cond + " {\n"), Nest(BlockOps(cases[0].body, ko))];
        var arms := ArmsOps(s, |cases|, ko);
        var tail := (if |els| > 0 then [Write("} else {\n"), Nest(BlockOps(els, ko))] else []);
        var fin := [Write("}\n")];
        BalancedText(head);
        BalancedText(tail);
        BalancedText(fin);
        ArmsBalanced(s, |cases|, ko);
        BalancedAppend(head, arms);
        BalancedAppend(head + arms, tail);
        BalancedAppend(head + arms + tail, fin);
      }
  }

  lemma {:induction false} ArmsBalanced(s: Statement, n: nat, ko: KeyOrder)
    requires s.Conditional? && n <= |s.cases|
    ensures Balanced(ArmsOps(s, n, ko))
    decreases n
  {
    if n <= 1 {
      BalancedText([]);
    } else {
      var arm := [Write("} elif " + s.cases[n - 1].cond + " {\n"), Nest(BlockOps(s.cases[n - 1].body, ko))];
      ArmsBalanced(s, n - 1, ko);
      BalancedText(arm);
      BalancedAppend(ArmsOps(s, n - 1, ko), arm);
    }
  }

  /** Printing a block leaves the indentation where it was. */
  lemma {:induction false} BlockOpsBalanced(b: Block, ko: KeyOrder)
    ensures Balanced(BlockOps(b, ko))
    decreases b, 2
  {
    if b == [] {
      BalancedText([]);
    } else {
      BlockOpsBalanced(b[..|b| - 1], ko);
      StmtOpsBalanced(b[|b| - 1], ko);
      BalancedAppend(BlockOps(b[..|b| - 1], ko), StmtOps(b[|b| - 1], ko));
    }
  }

  // ----- prefixes -----

  /** Running a prefix of the actions writes a prefix of the text. */
  // ----- every key of an object is printed once -----

  /** The actions of one member: its key, then its value. */
  function MemberOps(m: map<string, Value>, k: string, level: nat, ko: KeyOrder): seq<Op>
    requires k in m
  {
    [Write("\n" + KeyText(k, level) + " => ")] + ValueOps(m[k], false, true, level, ko)
  }

  /** Visiting `a` and then `b` prints the members of `a` and then those of `b`. */
  lemma {:induction false} MembersOpsSplit(m: map<string, Value>, a: seq<string>, b: seq<string>, level: nat, ko: KeyOrder)
    ensures MembersOps(m, a + b, level, ko) == MembersOps(m, a, level, ko) + MembersOps(m, b, level, ko)
    decreases |b|
  {
    if b != [] {
      var b', k := b[..|b| - 1], b[|b| - 1];
      assert (a + b)[..|a + b| - 1] == a + b' && (a + b)[|a + b| - 1] == k;
      MembersOpsSplit(m, a, b', level, ko);
      var last := if k in m then MemberOps(m, k, level, ko) else [];
      assert MembersOps(m, a + b, level, ko) == MembersOps(m, a + b', level, ko) + last;
      assert MembersOps(m, b, level, ko) == MembersOps(m, b', level, ko) + last;
      AppendAssoc(MembersOps(m, a, level, ko), MembersOps(m, b', level, ko), last);
    } else {
      assert a + b == a;
    }
  }

  /**
   * Under a valid visiting order every key of an object is printed exactly
   * once: the visiting order holds it at one position `i` only, and the
   * object's members are those visited before it, then its own key and
   * value, then those visited after it.
   */
  lemma KeyPrintedOnce(m: map<string, Value>, k: string, level: nat, ko: KeyOrder) returns (i: nat)
    requires ValidOrder(ko)
    requires k in m
    ensures i < |ko(m)| && ko(m)[i] == k
    ensures k !in ko(m)[..i] && k !in ko(m)[i + 1..]
    ensures MembersOps(m, ko(m), level, ko)
      == MembersOps(m, ko(m)[..i], level, ko) + MemberOps(m, k, level, ko) + MembersOps(m, ko(m)[i + 1..], level, ko)
  {
    var ks := ko(m);
    assert Enumerates(ks, m.Keys);
    assert k in ks;
    i :| 0 <= i < |ks| && ks[i] == k;
    MembersOpsAt(m, ks, i, level, ko);
  }

  /** The members printed for a list of keys are those before position `i`, the one at `i`, then those after it. */
  lemma MembersOpsAt(m: map<string, Value>, ks: seq<string>, i: nat, level: nat, ko: KeyOrder)
    requires i < |ks| && ks[i] in m
    ensures MembersOps(m, ks, level, ko)
      == MembersOps(m, ks[..i], level, ko) + MemberOps(m, ks[i], level, ko) + MembersOps(m, ks[i + 1..], level, ko)
  {
    var k := ks[i];
    assert ks == ks[..i] + [k] + ks[i + 1..];
    MembersOpsSplit(m, ks[..i] + [k], ks[i + 1..], level, ko);
    MembersOpsSplit(m, ks[..i], [k], level, ko);
    assert MembersOps(m, [k], level, ko) == MemberOps(m, k, level, ko) by {
      assert [k][..0] == [];
    }
  }

  /** Under a valid visiting order an object prints one member per key, and every visited key is one of its keys. */
  lemma VisitedKeys(m: map<string, Value>, ko: KeyOrder)
    requires ValidOrder(ko)
    ensures |ko(m)| == |m|
    ensures forall i :: 0 <= i < |ko(m)| ==> ko(m)[i] in m
  {
    var ks := ko(m);
    assert Enumerates(ks, m.Keys);
    DistinctCard(ks, m.Keys);
  }

  /** A sequence without repetitions that lists exactly a set is as long as the set is large. */
  lemma {:induction false} DistinctCard(ks: seq<string>, keys: set<string>)
    requires Enumerates(ks, keys)
    ensures |ks| == |keys|
    decreases |ks|
  {
    if ks != [] {
      var rest := ks[1..];
      assert Enumerates(rest, keys - {ks[0]}) by {
        forall k
          ensures k in rest <==> k in keys - {ks[0]}
        {
          if k in rest {
            var j :| 0 <= j < |rest| && rest[j] == k;
            assert ks[j + 1] == k;
          }
          if k in keys && k != ks[0] {
            assert k in ks;
            var j :| 0 <= j < |ks| && ks[j] == k;
            assert rest[j - 1] == k;
          }
        }
      }
      DistinctCard(rest, keys - {ks[0]});
    }
  }

  lemma RunPrefix(st: St, a: seq<Op>, b: seq<Op>)
    requires a <= b
    ensures Run(st, a).text <= Run(st, b).text
  {
    var c := b[|a|..];
    assert b == a + c;
    RunAppend(st, a, c);
    RunExtends(Run(st, a), c);
  }

  lemma {:induction false} MembersPrefix(m: map<string, Value>, ks: seq<string>, j: nat, level: nat, ko: KeyOrder)
    requires j <= |ks|
    ensures MembersOps(m, ks[..j], level, ko) <= MembersOps(m, ks, level, ko)
    decreases |ks|
  {
    if j == |ks| {
      assert ks[..j] == ks;
    } else {
      var init := ks[..|ks| - 1];
      MembersPrefix(m, init, j, level, ko);
      assert init[..j] == ks[..j];
    }
  }

  lemma {:induction false} ElemsPrefix(a: seq<Value>, j: nat, n: nat, level: nat, ko: KeyOrder)
    requires j <= n <= |a|
    ensures ElemsOps(a, j, level, ko) <= ElemsOps(a, n, level, ko)
    decreases n
  {
    if j < n {
      ElemsPrefix(a, j, n - 1, level, ko);
    }
  }

  lemma {:induction false} ArmsPrefix(s: Statement, j: nat, n: nat, ko: KeyOrder)
    requires s.Conditional? && j <= n <= |s.cases|
    ensures ArmsOps(s, j, ko) <= ArmsOps(s, n, ko)
    decreases n
  {
    if j < n && n > 1 {
      ArmsPrefix(s, j, n - 1, ko);
    }
  }

  lemma {:induction false} BlockPrefix(b: Block, j: nat, ko: KeyOrder)
    requires j <= |b|
    ensures BlockOps(b[..j], ko) <= BlockOps(b, ko)
    decreases |b|
  {
    if j == |b| {
      assert b[..j] == b;
    } else {
      var init := b[..|b| - 1];
      BlockPrefix(init, j, ko);
      assert init[..j] == b[..j];
    }
  }

  // ----- the whole program -----

  /** One `# line` comment per description line. */
  function CommentOps(lines: seq<string>): seq<Op>
  {
    if lines == [] then [] else CommentOps(lines[..|lines| - 1]) + [Write("# " + lines[|lines| - 1] + "\n")]
  }

  function DescriptionOps(description: string): seq<Op>
  {
    if description == "" then [] else CommentOps(Split(description, '\n'))
  }

  /** `Serialize`: the description as comments, then `filter {`, the guarded block one level in, `}`. */
  function SerializeOps(p: Pipeline, ko: KeyOrder): seq<Op>
  {
    DescriptionOps(p.description)
    + [Write("filter {\n"), Nest(BlockOps(GuardedBlock(p), ko)), Write("}\n")]
  }

  /** The text `Serialize` produces for `p` on a writer that accepts everything. */
  function SerializeText(p: Pipeline, ko: KeyOrder): string
  {
    Run(St("", false, 0), SerializeOps(p, ko)).text
  }

  /** The lines as comments, each ending in a newline. */
  function CommentText(lines: seq<string>): string
  {
    if lines == [] then "" else CommentText(lines[..|lines| - 1]) + "# " + lines[|lines| - 1] + "\n"
  }

  lemma {:induction false} CommentOpsText(st: St, lines: seq<string>)
    requires st.depth == 0
    ensures Run(st, CommentOps(lines)).text == st.text + CommentText(lines)
    ensures Run(st, CommentOps(lines)).depth == 0
    decreases |lines|
  {
    if lines != [] {
      var init := lines[..|lines| - 1];
      var line := "# " + lines[|lines| - 1] + "\n";
      CommentOpsText(st, init);
      RunAppend(st, CommentOps(init), [Write(line)]);
      LayoutFlat(Run(st, CommentOps(init)).ir, line);
    }
  }

  /** After text at depth 0: `filter {`, the block one level in, `}`. */
  lemma FilterSection(s1: St, body: seq<Op>)
    requires s1.depth == 0
    ensures Run(s1, [Write("filter {\n"), Nest(body), Write("}\n")]).text
      == s1.text + "filter {\n" + Run(St("", true, 1), body).text + "}\n"
  {
    var tail := [Write("filter {\n"), Nest(body), Write("}\n")];
    LayoutFlat(s1.ir, "filter {\n");
    var s2 := Step(s1, Write("filter {\n"));
    assert s2.ir && s2.depth == 0 && s2.text == s1.text + "filter {\n";
    var s3 := Step(s2, Nest(body));
    RunExtends(s2.(depth := 1), body);
    assert s2.(depth := 1).(text := "") == St("", true, 1);
    assert s3.text == s2.text + Run(St("", true, 1), body).text && s3.depth == 0;
    LayoutFlat(s3.ir, "}\n");
    var s4 := Step(s3, Write("}\n"));
    assert s4.text == s3.text + "}\n";
    assert Run(s3, tail[2..]) == s4 by {
      assert tail[2..][1..] == [];
    }
    assert Run(s2, tail[1..]) == s4 by {
      assert tail[1..][1..] == tail[2..];
    }
  }

  function DescriptionText(description: string): string
  {
    if description == "" then "" else CommentText(Split(description, '\n'))
  }

  lemma DescriptionOpsText(description: string)
    ensures Run(St("", false, 0), DescriptionOps(description)).text == DescriptionText(description)
    ensures Run(St("", false, 0), DescriptionOps(description)).depth == 0
  {
    if description != "" {
      CommentOpsText(St("", false, 0), Split(description, '\n'));
    }
  }

  /**
   * The printed program is the description's lines as comments, `filter {`,
   * the block printed one level in, and the closing `}`.
   */
  lemma SerializeShape(p: Pipeline, ko: KeyOrder)
    ensures SerializeText(p, ko) ==
      DescriptionText(p.description)
      + "filter {\n" + Run(St("", true, 1), BlockOps(GuardedBlock(p), ko)).text + "}\n"
  {
    var st0 := St("", false, 0);
    var d := DescriptionOps(p.description);
    var body := BlockOps(GuardedBlock(p), ko);
    var tail := [Write("filter {\n"), Nest(body), Write("}\n")];
    assert SerializeOps(p, ko) == d + tail;
    RunAppend(st0, d, tail);
    DescriptionOpsText(p.description);
    FilterSection(Run(st0, d), body);
  }
}
