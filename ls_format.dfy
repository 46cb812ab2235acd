/**
 * The Logstash printer of prog/ls/format.go and the `format` methods of
 * prog/ls/filter.go, as the source writes it: a formatting context that
 * writes line by line into an `io.Writer`, keeps the current indentation and
 * remembers the first write error; a parameter printer driven by the value
 * walk; and the statement formatters.
 *
 * Every method is proved to follow the pure description in `LsRender`: the
 * ghost fields of `FormatCtx` hold the printer state `St` the actions so far
 * lead to (`Abs`), and `Valid` ties what the writer holds to it: the writer
 * keeps the first `capacity` characters of that text, and an error is
 * recorded exactly when the text did not fit.
 */
module LsFormat {
  import opened Values
  import opened Strs
  import opened LsAst
  import opened LsRender

  /** The `io.Writer`: a buffer with room for `capacity` characters. */
  class Sink {
    var data: string
    const capacity: nat

    constructor(capacity: nat)
      ensures data == "" && this.capacity == capacity
    {
      data := "";
      this.capacity := capacity;
    }

    /** `io.WriteString`: writes what fits; a short write is an error. */
    method WriteString(s: string) returns (n: nat, ok: bool)
      requires |data| <= capacity
      modifies this
      ensures n <= |s| && data == old(data) + s[..n]
      ensures data == Trunc(old(data) + s, capacity)
      ensures ok <==> |old(data)| + |s| <= capacity
    {
      n := if |data| + |s| <= capacity then |s| else capacity - |data|;
      ghost var d0 := data;
      data := data + s[..n];
      ok := n == |s|;
      if !ok {
        assert (d0 + s)[..capacity] == d0 + s[..n];
      } else {
        assert s[..n] == s;
      }
    }
  }

  /**
   * The two raw writes of `doWriteString` leave in the writer what the
   * whole text would: the indentation actually written differs from the
   * ideal one only once the writer is already full.
   */
  lemma ChunkWrites(i0: string, pre: string, written: string, s: string, cap: nat)
    requires |i0| <= cap ==> written == pre
    ensures Trunc(Trunc(Trunc(i0, cap) + written, cap) + s, cap) == Trunc(i0 + (pre + s), cap)
    ensures (|i0| > cap || |Trunc(i0, cap)| + |written| > cap || |Trunc(Trunc(i0, cap) + written, cap)| + |s| > cap)
      <==> |i0 + (pre + s)| > cap
  {
    if |i0| > cap {
      TruncExtend(i0, pre + s, cap);
      var t := i0[..cap];
      assert Trunc(t + written, cap) == t by {
        assert (t + written)[..cap] == t;
      }
      assert Trunc(t + s, cap) == t by {
        assert (t + s)[..cap] == t;
      }
    } else {
      TruncAppend(i0 + pre, s, cap);
      assert i0 + pre + s == i0 + (pre + s);
    }
  }

  lemma IndLength(depth: nat)
    ensures |Ind(depth)| == 4 * depth
  {
  }

  /** `formatCtx`. `failed` is `err != nil`. */
  class FormatCtx {
    const out: Sink
    var failed: bool
    const indent: string
    var currentIndent: string
    var indentRequired: bool

    /** The printer state of `LsRender` the actions so far lead to. */
    ghost var ideal: string
    ghost var idealIr: bool
    ghost var depth: nat
    /** The indentation depth `currentIndent` holds (equal to `depth` until a write fails). */
    ghost var level: nat

    ghost predicate Valid()
      reads this, out
    {
      indent == IndentUnit && currentIndent == Ind(level)
      && out.data == Trunc(ideal, out.capacity)
      && (failed <==> |ideal| > out.capacity)
      && (!failed ==> level == depth && indentRequired == idealIr)
    }

    ghost function Abs(): St
      reads this
    {
      St(ideal, idealIr, depth)
    }

    /** `Serialize` creates the context on a fresh writer. */
    constructor(out: Sink)
      requires out.data == ""
      ensures this.out == out && Valid() && Abs() == St("", false, 0) && !failed
    {
      this.out := out;
      failed := false;
      indent := IndentUnit;
      currentIndent := "";
      indentRequired := false;
      ideal := "";
      idealIr := false;
      depth := 0;
      level := 0;
    }

    /**
     * After a write error nothing more reaches the writer, so the state the
     * remaining actions lead to can be taken at once.
     */
    ghost method Abandon(t: St)
      requires Valid() && failed && ideal <= t.text
      modifies this`ideal, this`idealIr, this`depth
      ensures Valid() && Abs() == t
    {
      TruncExtend(ideal, t.text[|ideal|..], out.capacity);
      assert ideal + t.text[|ideal|..] == t.text;
      ideal, idealIr, depth := t.text, t.ir, t.depth;
    }

    /** `doWriteString_`: writes all of `s`, recording the first error. */
    method DoWriteRaw(s: string) returns (ok: bool)
      requires |out.data| <= out.capacity
      modifies out, this`failed
      ensures out.data == Trunc(old(out.data) + s, out.capacity)
      ensures ok <==> |old(out.data)| + |s| <= out.capacity
      ensures failed == (old(failed) || !ok)
    {
      var rest := s;
      while |rest| > 0
        invariant |out.data| <= out.capacity
        invariant out.data + rest == old(out.data) + s
        invariant failed == old(failed)
        decreases |rest|
      {
        var n, written := out.WriteString(rest);
        assert rest[..n] + rest[n..] == rest;
        rest := rest[n..];
        if !written {
          failed := true;
          return false;
        }
      }
      assert out.data == old(out.data) + s;
      return true;
    }

    /** `doWriteString`: the pending indentation (unless `s` is a bare newline), then `s`. */
    method DoWriteString(s: string) returns (ok: bool)
      requires Valid()
      modifies out, this`failed, this`ideal
      ensures Valid() && Abs() == Step(old(Abs()), Chunk(s))
      ensures ok == (s == "" || !failed)
    {
      ghost var i0 := ideal;
      ghost var pre := if idealIr && s != "\n" then Ind(depth) else "";
      ghost var written := if indentRequired && s != "\n" then currentIndent else "";
      ghost var d0 := out.data;
      ghost var wasFailed := failed;
      assert d0 + "" == d0;
      var skipped := true;
      if indentRequired && s != "\n" {
        skipped := DoWriteRaw(currentIndent);
      }
      ghost var d1 := out.data;
      ghost var f1 := failed;
      assert d1 == Trunc(d0 + written, out.capacity);
      assert f1 == (wasFailed || |d0| + |written| > out.capacity);
      ok := DoWriteRaw(s);
      assert out.data == Trunc(d1 + s, out.capacity);
      assert Emit(idealIr, depth, s) == pre + s;
      ideal := ideal + Emit(idealIr, depth, s);
      ChunkWrites(i0, pre, written, s, out.capacity);
      assert Step(St(i0, idealIr, depth), Chunk(s)) == St(ideal, idealIr, depth);
    }

    /**
     * `Write` (behind `Printf` and `Println`): nothing after an error;
     * otherwise the text line by line, an indent pending after each newline.
     */
    method Write(s: string) returns (ok: bool)
      requires Valid()
      modifies out, this`failed, this`ideal, this`idealIr, this`indentRequired, this`depth
      ensures Valid() && Abs() == Step(old(Abs()), Op.Write(s))
      ensures ok == !failed
    {
      ghost var target := Step(Abs(), Op.Write(s));
      if failed {
        Abandon(target);
        return false;
      }
      var rest := s;
      while |rest| > 0
        invariant Valid() && !failed && depth == target.depth
        invariant ideal + Layout(idealIr, depth, rest).0 == target.text
        invariant Layout(idealIr, depth, rest).1 == target.ir
        decreases |rest|
      {
        var idx := IndexOf(rest, '\n');
        if idx < 0 {
          WriteLast(rest);
          return !failed;
        }
        var written;
        written, rest := WriteLine(rest, idx);
        if !written {
          Abandon(target);
          return false;
        }
      }
      return true;
    }

    /** The last piece of a `Write`, without a newline: the pending indent is cleared. */
    method WriteLast(rest: string)
      requires Valid() && !failed && rest != [] && '\n' !in rest
      modifies out, this`failed, this`ideal, this`idealIr, this`indentRequired
      ensures Valid()
      ensures ideal == old(ideal) + Layout(old(idealIr), depth, rest).0
      ensures idealIr == Layout(old(idealIr), depth, rest).1
    {
      LayoutNoNewline(idealIr, depth, rest);
      var _ := DoWriteString(rest);
      if indentRequired {
        indentRequired := false;
      }
      idealIr := false;
    }

    /** One line of a `Write`: the text up to the newline at `idx`, and the newline. */
    method WriteLine(rest: string, idx: int) returns (ok: bool, tail: string)
      requires Valid() && !failed && 0 <= idx < |rest| && rest[idx] == '\n' && '\n' !in rest[..idx]
      modifies out, this`failed, this`ideal, this`idealIr, this`indentRequired
      ensures Valid() && ok == !failed && |tail| < |rest|
      ensures ok ==> ideal + Layout(idealIr, depth, tail).0 == old(ideal) + Layout(old(idealIr), depth, rest).0
      ensures ok ==> Layout(idealIr, depth, tail).1 == Layout(old(idealIr), depth, rest).1
      ensures !ok ==> ideal <= old(ideal) + Layout(old(idealIr), depth, rest).0
    {
      var line := rest[..idx] + "\n";
      tail := rest[idx + 1..];
      assert rest == rest[..idx] + "\n" + tail;
      LayoutLine(idealIr, depth, rest[..idx], tail);
      ghost var i0, ir0 := ideal, idealIr;
      ghost var emitted := Emit(ir0, depth, line);
      ok := DoWriteString(line);
      assert ideal == i0 + emitted;
      if ok {
        indentRequired := true;
        idealIr := true;
        assert ideal + Layout(true, depth, tail).0 == i0 + (emitted + Layout(true, depth, tail).0);
      }
    }

    /** `increaseIndent`. */
    method IncreaseIndent()
      requires Valid()
      modifies this`currentIndent, this`depth, this`level
      ensures Valid() && Abs() == Step(old(Abs()), Indent)
      ensures level == old(level) + 1
    {
      currentIndent := currentIndent + indent;
      depth := depth + 1;
      level := level + 1;
    }

    /** `decreaseIndent`: one level less, and nothing at the left margin. */
    method DecreaseIndent()
      requires Valid()
      modifies this`currentIndent, this`depth, this`level
      ensures Valid() && Abs() == Step(old(Abs()), Dedent)
    {
      IndLength(level);
      if |currentIndent| > 0 {
        var end := |currentIndent| - |indent|;
        assert currentIndent == Ind(level - 1) + IndentUnit;
        currentIndent := currentIndent[..end];
        level := level - 1;
      }
      depth := if depth > 0 then depth - 1 else 0;
    }
  }

  /** `boolStack`: the current flag and the saved ones. */
  datatype BoolStack = BoolStack(stack: seq<bool>, current: bool) {
    /** `push`: saves the current flag and makes `b` current. */
    function Push(b: bool): (r: BoolStack)
      ensures r.current == b && |r.stack| == |stack| + 1
    {
      BoolStack(stack + [current], b)
    }

    /** `pop` (the source panics on an empty stack): brings back the last saved flag. */
    function Pop(): (r: BoolStack)
      requires |stack| > 0
      ensures |r.stack| == |stack| - 1 && r.Push(current) == this
    {
      BoolStack(stack[..|stack| - 1], stack[|stack| - 1])
    }
  }

  /** Popping undoes a push. */
  lemma PushPop(s: BoolStack, b: bool)
    ensures s.Push(b).Pop() == s
  {
    assert (s.stack + [s.current])[..|s.stack|] == s.stack;
  }

  /** The flags after `tryElemNext`: inside an array, the next element is no longer the first. */
  function AfterElemNext(first: BoolStack, inArray: BoolStack): BoolStack
  {
    if inArray.current then first.(current := false) else first
  }

  /** `paramPrinter`: the visitor `gotype.Fold` drives over a parameter value. */
  class ParamPrinter {
    const ctx: FormatCtx
    /** The order in which the walk visits the keys of an object. */
    const keyOrder: KeyOrder
    var first: BoolStack
    var inArray: BoolStack

    /** `newParamPrinter`. */
    constructor(ctx: FormatCtx, keyOrder: KeyOrder)
      ensures this.ctx == ctx && this.keyOrder == keyOrder
      ensures first == BoolStack([], false) && inArray == BoolStack([], false)
    {
      this.ctx := ctx;
      this.keyOrder := keyOrder;
      first := BoolStack([], false);
      inArray := BoolStack([], false);
    }

    /** `tryElemNext`: `,\n` before every array element but the first. */
    method TryElemNext() returns (ok: bool)
      requires ctx.Valid()
      modifies this`first, ctx.out, ctx`failed, ctx`ideal
      ensures ctx.Valid() && ctx.Abs() == Run(old(ctx.Abs()), Sep(inArray.current, old(first.current)))
      ensures first == AfterElemNext(old(first), inArray)
      ensures ok == (Sep(inArray.current, old(first.current)) == [] || !ctx.failed)
    {
      if !inArray.current {
        return true;
      }
      if first.current {
        first := first.(current := false);
        return true;
      }
      ok := ctx.DoWriteString(",\n");
      RunOne(old(ctx.Abs()), Chunk(",\n"));
    }

    /** `enter`. */
    method Enter(isArray: bool)
      requires ctx.Valid()
      modifies this`first, this`inArray, ctx`currentIndent, ctx`depth, ctx`level
      ensures ctx.Valid() && ctx.Abs() == Step(old(ctx.Abs()), Indent)
      ensures first == old(first).Push(true) && inArray == old(inArray).Push(isArray)
    {
      first := first.Push(true);
      inArray := inArray.Push(isArray);
      ctx.IncreaseIndent();
    }

    /** `exit`. */
    method Exit()
      requires ctx.Valid() && |first.stack| > 0 && |inArray.stack| > 0
      modifies this`first, this`inArray, ctx`currentIndent, ctx`depth, ctx`level
      ensures ctx.Valid() && ctx.Abs() == Step(old(ctx.Abs()), Dedent)
      ensures first == old(first).Pop() && inArray == old(inArray).Pop()
    {
      ctx.DecreaseIndent();
      first := first.Pop();
      inArray := inArray.Pop();
    }

    /** `OnObjectStart`. */
    method OnObjectStart() returns (ok: bool)
      requires ctx.Valid()
      modifies this, ctx, ctx.out
      ensures ctx.Valid()
      ensures ctx.Abs() == Run(old(ctx.Abs()), Sep(old(inArray.current), old(first.current)) + [Op.Write("{"), Indent])
      ensures ok == !ctx.failed
      ensures ok ==> first == AfterElemNext(old(first), old(inArray)).Push(true) && inArray == old(inArray).Push(false)
    {
      ghost var st0 := ctx.Abs();
      ghost var sep := Sep(inArray.current, first.current);
      ghost var ops := sep + [Op.Write("{"), Indent];
      ok := TryElemNext();
      if !ok {
        RunPrefix(st0, sep, ops);
        ctx.Abandon(Run(st0, ops));
        return;
      }
      ghost var st1 := ctx.Abs();
      var _ := ctx.Write("{");
      Enter(false);
      ok := !ctx.failed;
      RunAppend(st0, sep, [Op.Write("{"), Indent]);
      RunPair(st1, Op.Write("{"), Indent);
    }

    /** `OnObjectFinished`. */
    method OnObjectFinished() returns (ok: bool)
      requires ctx.Valid() && |first.stack| > 0 && |inArray.stack| > 0
      modifies this, ctx, ctx.out
      ensures ctx.Valid() && ctx.Abs() == Run(old(ctx.Abs()), [Dedent, Op.Write("\n}\n")])
      ensures ok == !ctx.failed
      ensures first == old(first).Pop() && inArray == old(inArray).Pop()
    {
      ghost var st0 := ctx.Abs();
      Exit();
      ok := ctx.Write("\n}\n");
      RunPair(st0, Dedent, Op.Write("\n}\n"));
    }

    /**
     * `OnKey`: the key, quoted below the top level or when it looks like a
     * field reference. The source indexes the key's first character at the
     * top level, so an empty top-level key is not allowed.
     */
    method OnKey(k: string) returns (ok: bool)
      requires ctx.Valid() && (|inArray.stack| > 1 || k != "")
      modifies ctx, ctx.out
      ensures ctx.Valid() && ctx.Abs() == Run(old(ctx.Abs()), [Op.Write("\n" + KeyText(k, |inArray.stack|) + " => ")])
      ensures ok == !ctx.failed
    {
      var key := k;
      if |inArray.stack| > 1 || (k[0] == '[' && k[|k| - 1] == ']') {
        key := Quote(k);
      }
      ok := ctx.Write("\n" + key + " => ");
      RunOne(old(ctx.Abs()), Op.Write("\n" + key + " => "));
    }

    /** `OnArrayStart`. */
    method OnArrayStart() returns (ok: bool)
      requires ctx.Valid()
      modifies this, ctx, ctx.out
      ensures ctx.Valid()
      ensures ctx.Abs() == Run(old(ctx.Abs()), Sep(old(inArray.current), old(first.current)) + [Op.Write("[\n"), Indent])
      ensures ok == !ctx.failed
      ensures ok ==> first == AfterElemNext(old(first), old(inArray)).Push(true) && inArray == old(inArray).Push(true)
    {
      ghost var st0 := ctx.Abs();
      ghost var sep := Sep(inArray.current, first.current);
      ghost var ops := sep + [Op.Write("[\n"), Indent];
      ok := TryElemNext();
      if !ok {
        RunPrefix(st0, sep, ops);
        ctx.Abandon(Run(st0, ops));
        return;
      }
      ghost var st1 := ctx.Abs();
      var _ := ctx.Write("[\n");
      Enter(true);
      ok := !ctx.failed;
      RunAppend(st0, sep, [Op.Write("[\n"), Indent]);
      RunPair(st1, Op.Write("[\n"), Indent);
    }

    /** `OnArrayFinished`. */
    method OnArrayFinished() returns (ok: bool)
      requires ctx.Valid() && |first.stack| > 0 && |inArray.stack| > 0
      modifies this, ctx, ctx.out
      ensures ctx.Valid() && ctx.Abs() == Run(old(ctx.Abs()), [Dedent, Op.Write("\n]")])
      ensures ok == !ctx.failed
      ensures first == old(first).Pop() && inArray == old(inArray).Pop()
    {
      ghost var st0 := ctx.Abs();
      Exit();
      ok := ctx.Write("\n]");
      RunPair(st0, Dedent, Op.Write("\n]"));
    }

    /** `onValue` (behind `OnNil`, `OnBool`, `OnString` and the integer callbacks): a scalar as `text`. */
    method OnValue(text: string) returns (ok: bool)
      requires ctx.Valid()
      modifies this, ctx, ctx.out
      ensures ctx.Valid()
      ensures ctx.Abs() == Run(old(ctx.Abs()), Sep(old(inArray.current), old(first.current)) + [Op.Write(text)])
      ensures ok == !ctx.failed
      ensures first == AfterElemNext(old(first), old(inArray)) && inArray == old(inArray)
    {
      ghost var st0 := ctx.Abs();
      ghost var sep := Sep(inArray.current, first.current);
      ghost var ops := sep + [Op.Write(text)];
      ok := TryElemNext();
      if !ok {
        RunPrefix(st0, sep, ops);
        ctx.Abandon(Run(st0, ops));
        return;
      }
      ghost var st1 := ctx.Abs();
      ok := ctx.Write(text);
      RunAppend(st0, sep, [Op.Write(text)]);
      RunOne(st1, Op.Write(text));
    }

    /**
     * `gotype.Fold` with this printer: the callbacks for `v` and its parts in
     * order, stopping at the first error. An empty key is only allowed below
     * the top level (see `OnKey`).
     */
    method Fold(v: Value) returns (ok: bool)
      requires ctx.Valid()
      requires v.Obj? && |inArray.stack| == 0 ==> "" !in v.fields
      modifies this, ctx, ctx.out
      decreases v, 3
      ensures ctx.Valid()
      ensures ctx.Abs() == Run(old(ctx.Abs()), ValueOps(v, old(inArray.current), old(first.current), |old(inArray.stack)|, keyOrder))
      ensures ok == !ctx.failed
      ensures ok ==> inArray == old(inArray) && first == AfterElemNext(old(first), old(inArray))
    {
      match v {
        case Obj(m) =>
          ok := FoldObject(m);
        case Arr(a) =>
          ok := FoldArray(a);
        case _ =>
          ok := OnValue(Lit(v));
      }
    }

    /** The walk over an object: its members in the visiting order. */
    method FoldObject(m: map<string, Value>) returns (ok: bool)
      requires ctx.Valid()
      requires |inArray.stack| == 0 ==> "" !in m
      modifies this, ctx, ctx.out
      decreases Obj(m), 2
      ensures ctx.Valid()
      ensures ctx.Abs() == Run(old(ctx.Abs()), ValueOps(Obj(m), old(inArray.current), old(first.current), |old(inArray.stack)|, keyOrder))
      ensures ok == !ctx.failed
      ensures ok ==> inArray == old(inArray) && first == AfterElemNext(old(first), old(inArray))
    {
      ghost var st0 := ctx.Abs();
      ghost var f0, a0 := first, inArray;
      ghost var lvl := |inArray.stack|;
      ghost var head := Sep(a0.current, f0.current) + [Op.Write("{"), Indent];
      ghost var close := [Dedent, Op.Write("\n}\n")];
      var keys := keyOrder(m);
      ghost var members := MembersOps(m, keys, lvl + 1, keyOrder);
      ghost var rest := members + close;
      AppendAssoc(head, members, close);
      assert ValueOps(Obj(m), a0.current, f0.current, lvl, keyOrder) == head + rest;
      ok := OnObjectStart();
      RunAppend(st0, head, rest);
      if !ok {
        RunPrefix(st0, head, head + rest);
        ctx.Abandon(Run(st0, head + rest));
        return;
      }
      ghost var st1 := ctx.Abs();
      ok := FoldMembers(m, keys);
      if !ok {
        RunPrefix(st1, members, rest);
        ctx.Abandon(Run(st1, rest));
        return;
      }
      ok := OnObjectFinished();
      RunAppend(st1, members, close);
      PushPop(AfterElemNext(f0, a0), true);
      PushPop(a0, false);
    }

    /** The members of an object in the order `keys` gives, skipping keys it does not hold. */
    method FoldMembers(m: map<string, Value>, keys: seq<string>) returns (ok: bool)
      requires ctx.Valid() && !ctx.failed && !inArray.current && first.current && |inArray.stack| > 0
      requires |inArray.stack| == 1 ==> "" !in m
      modifies this, ctx, ctx.out
      decreases Obj(m), 1
      ensures ctx.Valid()
      ensures ctx.Abs() == Run(old(ctx.Abs()), MembersOps(m, keys, |old(inArray.stack)|, keyOrder))
      ensures ok == !ctx.failed
      ensures ok ==> inArray == old(inArray) && first == old(first)
    {
      ghost var st1 := ctx.Abs();
      ghost var lvl := |inArray.stack|;
      ok := true;
      assert keys[..0] == [];
      for i := 0 to |keys|
        invariant ctx.Valid() && !ctx.failed && ok
        invariant ctx.Abs() == Run(st1, MembersOps(m, keys[..i], lvl, keyOrder))
        invariant inArray == old(inArray) && first == old(first)
      {
        var k := keys[i];
        assert keys[..i + 1][..i] == keys[..i];
        ghost var done := MembersOps(m, keys[..i], lvl, keyOrder);
        if k in m {
          ghost var member := [Op.Write("\n" + KeyText(k, lvl) + " => ")] + ValueOps(m[k], false, true, lvl, keyOrder);
          assert MembersOps(m, keys[..i + 1], lvl, keyOrder) == done + member;
          ok := FoldMember(m, k);
          RunAppend(st1, done, member);
          if !ok {
            MembersPrefix(m, keys, i + 1, lvl, keyOrder);
            RunPrefix(st1, done + member, MembersOps(m, keys, lvl, keyOrder));
            ctx.Abandon(Run(st1, MembersOps(m, keys, lvl, keyOrder)));
            return;
          }
        } else {
          assert MembersOps(m, keys[..i + 1], lvl, keyOrder) == done;
        }
      }
      assert keys[..|keys|] == keys;
    }

    /** One member of an object: its key, then its value. */
    method FoldMember(m: map<string, Value>, k: string) returns (ok: bool)
      requires ctx.Valid() && k in m && !inArray.current && |inArray.stack| > 0
      requires |inArray.stack| > 1 || k != ""
      modifies this, ctx, ctx.out
      decreases Obj(m), 0
      ensures ctx.Valid()
      ensures ctx.Abs() == Run(old(ctx.Abs()),
        [Op.Write("\n" + KeyText(k, |old(inArray.stack)|) + " => ")]
        + ValueOps(m[k], false, old(first.current), |old(inArray.stack)|, keyOrder))
      ensures ok == !ctx.failed
      ensures ok ==> inArray == old(inArray) && first == old(first)
    {
      ghost var st0 := ctx.Abs();
      ghost var keyOp := [Op.Write("\n" + KeyText(k, |inArray.stack|) + " => ")];
      ghost var valueOps := ValueOps(m[k], false, first.current, |inArray.stack|, keyOrder);
      ok := OnKey(k);
      if !ok {
        RunPrefix(st0, keyOp, keyOp + valueOps);
        ctx.Abandon(Run(st0, keyOp + valueOps));
        return;
      }
      ok := Fold(m[k]);
      RunAppend(st0, keyOp, valueOps);
    }

    /** The walk over an array: its elements in order. */
    method FoldArray(a: seq<Value>) returns (ok: bool)
      requires ctx.Valid()
      modifies this, ctx, ctx.out
      decreases Arr(a), 1
      ensures ctx.Valid()
      ensures ctx.Abs() == Run(old(ctx.Abs()), ValueOps(Arr(a), old(inArray.current), old(first.current), |old(inArray.stack)|, keyOrder))
      ensures ok == !ctx.failed
      ensures ok ==> inArray == old(inArray) && first == AfterElemNext(old(first), old(inArray))
    {
      ghost var st0 := ctx.Abs();
      ghost var f0, a0 := first, inArray;
      ghost var lvl := |inArray.stack|;
      ghost var head := Sep(a0.current, f0.current) + [Op.Write("[\n"), Indent];
      ghost var close := [Dedent, Op.Write("\n]")];
      ghost var elems := ElemsOps(a, |a|, lvl + 1, keyOrder);
      ghost var rest := elems + close;
      AppendAssoc(head, elems, close);
      assert ValueOps(Arr(a), a0.current, f0.current, lvl, keyOrder) == head + rest;
      ok := OnArrayStart();
      RunAppend(st0, head, rest);
      if !ok {
        RunPrefix(st0, head, head + rest);
        ctx.Abandon(Run(st0, head + rest));
        return;
      }
      ghost var st1 := ctx.Abs();
      ok := FoldElements(a);
      if !ok {
        RunPrefix(st1, elems, rest);
        ctx.Abandon(Run(st1, rest));
        return;
      }
      ok := OnArrayFinished();
      RunAppend(st1, elems, close);
      PushPop(AfterElemNext(f0, a0), true);
      PushPop(a0, true);
    }

    /** The elements of an array, each but the first preceded by the separator. */
    method FoldElements(a: seq<Value>) returns (ok: bool)
      requires ctx.Valid() && !ctx.failed && inArray.current && first.current && |inArray.stack| > 0
      modifies this, ctx, ctx.out
      decreases Arr(a), 0
      ensures ctx.Valid()
      ensures ctx.Abs() == Run(old(ctx.Abs()), ElemsOps(a, |a|, |old(inArray.stack)|, keyOrder))
      ensures ok == !ctx.failed
      ensures ok ==> inArray == old(inArray) && first == old(first).(current := |a| == 0)
    {
      ghost var st1 := ctx.Abs();
      ghost var f0 := first;
      ghost var lvl := |inArray.stack|;
      ok := true;
      for i := 0 to |a|
        invariant ctx.Valid() && !ctx.failed
        invariant ctx.Abs() == Run(st1, ElemsOps(a, i, lvl, keyOrder))
        invariant first == f0.(current := i == 0) && inArray == old(inArray)
      {
        ghost var done := ElemsOps(a, i, lvl, keyOrder);
        ghost var elem := ValueOps(a[i], true, i == 0, lvl, keyOrder);
        assert ElemsOps(a, i + 1, lvl, keyOrder) == done + elem;
        ok := Fold(a[i]);
        RunAppend(st1, done, elem);
        if !ok {
          ElemsPrefix(a, i + 1, |a|, lvl, keyOrder);
          RunPrefix(st1, done + elem, ElemsOps(a, |a|, lvl, keyOrder));
          ctx.Abandon(Run(st1, ElemsOps(a, |a|, lvl, keyOrder)));
          return;
        }
      }
    }
  }

  // ----- statements -----

  /** `Filter.format`: `name {}` without parameters, otherwise the name and the parameter object. */
  method FormatFilter(ctx: FormatCtx, name: string, params: Params, ko: KeyOrder) returns (ok: bool)
    requires ctx.Valid() && "" !in params
    modifies ctx, ctx.out
    ensures ctx.Valid() && ctx.Abs() == Run(old(ctx.Abs()), FilterOps(name, params, ko))
    ensures ok == !ctx.failed
  {
    ghost var st0 := ctx.Abs();
    if |params| == 0 {
      ok := ctx.Write(name + " {}");
      RunOne(st0, Op.Write(name + " {}"));
      return;
    }
    var _ := ctx.Write(name + " ");
    ghost var st1 := ctx.Abs();
    var printer := new ParamPrinter(ctx, ko);
    ok := printer.Fold(Obj(params));
    RunOne(st0, Op.Write(name + " "));
    RunAppend(st0, [Op.Write(name + " ")], ValueOps(Obj(params), false, false, 0, ko));
  }

  /**
   * `Block.format`: the statements in order, stopping at the first one that
   * reports an error.
   */
  method FormatBlock(ctx: FormatCtx, b: Block, ko: KeyOrder) returns (ok: bool)
    requires ctx.Valid() && WellFormedBlock(b)
    modifies ctx, ctx.out
    decreases b, 0
    ensures ctx.Valid() && ctx.Abs() == Run(old(ctx.Abs()), BlockOps(b, ko))
    ensures ctx.failed == (old(ctx.failed) || !ok)
  {
    ghost var st0 := ctx.Abs();
    ghost var f0 := ctx.failed;
    ok := true;
    for i := 0 to |b|
      invariant ctx.Valid() && ctx.failed == f0
      invariant ctx.Abs() == Run(st0, BlockOps(b[..i], ko))
    {
      assert b[..i + 1][..i] == b[..i];
      ghost var done := BlockOps(b[..i], ko);
      ok := FormatStatement(ctx, b[i], ko);
      RunAppend(st0, done, StmtOps(b[i], ko));
      assert done + StmtOps(b[i], ko) == BlockOps(b[..i + 1], ko);
      if !ok {
        BlockPrefix(b, i + 1, ko);
        RunPrefix(st0, BlockOps(b[..i + 1], ko), BlockOps(b, ko));
        ctx.Abandon(Run(st0, BlockOps(b, ko)));
        return;
      }
    }
    assert b[..|b|] == b;
  }

  /** `withIndent(b.format)`: the block one level in; the indentation is restored whatever happens. */
  method FormatBlockIndented(ctx: FormatCtx, b: Block, ko: KeyOrder) returns (ok: bool)
    requires ctx.Valid() && WellFormedBlock(b)
    modifies ctx, ctx.out
    decreases b, 1
    ensures ctx.Valid() && ctx.Abs() == Step(old(ctx.Abs()), Nest(BlockOps(b, ko)))
    ensures ctx.failed == (old(ctx.failed) || !ok)
  {
    var saved := ctx.currentIndent;
    ghost var savedLevel, savedDepth := ctx.level, ctx.depth;
    ctx.currentIndent := saved + ctx.indent;
    ctx.level, ctx.depth := savedLevel + 1, savedDepth + 1;
    ok := FormatBlock(ctx, b, ko);
    ctx.currentIndent := saved;
    ctx.level, ctx.depth := savedLevel, savedDepth;
  }

  /** `Statement.format`, dispatching on the kind of statement. */
  method FormatStatement(ctx: FormatCtx, s: Statement, ko: KeyOrder) returns (ok: bool)
    requires ctx.Valid() && WellFormed(s)
    modifies ctx, ctx.out
    decreases s, 2
    ensures ctx.Valid() && ctx.Abs() == Run(old(ctx.Abs()), StmtOps(s, ko))
    ensures ctx.failed == (old(ctx.failed) || !ok)
  {
    ghost var st0 := ctx.Abs();
    match s {
      case Filter(name, params) =>
        ghost var st0 := ctx.Abs();
        ok := FormatFilter(ctx, name, params, ko);
        RunExtends(st0, FilterOps(name, params, ko));
      case Nested(b) =>
        ok := FormatBlock(ctx, b, ko);
      case Conditional(_, _) =>
        ok := FormatConditional(ctx, s, ko);
    }
    // the text only grows, so an error once recorded stays recorded
    RunExtends(st0, StmtOps(s, ko));
  }

  /**
   * `Conditional.format`: the `if` arm, the `elif` arms and the `else` block,
   * each body one level in; only the error of the closing `}` is reported.
   */
  method FormatConditional(ctx: FormatCtx, s: Statement, ko: KeyOrder) returns (ok: bool)
    requires ctx.Valid() && s.Conditional? && WellFormed(s)
    modifies ctx, ctx.out
    decreases s, 1
    ensures ctx.Valid() && ctx.Abs() == Run(old(ctx.Abs()), StmtOps(s, ko))
    ensures ok == !ctx.failed
  {
    ghost var st0 := ctx.Abs();
    var cases := s.cases;
    var els := s.elseBlock;
    ghost var head := [Op.Write("if " + cases[0].cond + " {\n"), Nest(BlockOps(cases[0].body, ko))];
    var _ := ctx.Write("if " + cases[0].cond + " {\n");
    var _ := FormatBlockIndented(ctx, cases[0].body, ko);
    RunPair(st0, head[0], head[1]);
    FormatElifs(ctx, s, ko);
    RunAppend(st0, head, ArmsOps(s, |cases|, ko));
    ghost var arms := head + ArmsOps(s, |cases|, ko);
    ghost var elseOps := if |els| > 0 then [Op.Write("} else {\n"), Nest(BlockOps(els, ko))] else [];
    ghost var st2 := ctx.Abs();
    if |els| > 0 {
      var _ := ctx.Write("} else {\n");
      var _ := FormatBlockIndented(ctx, els, ko);
      RunPair(st2, elseOps[0], elseOps[1]);
    }
    RunAppend(st0, arms, elseOps);
    ghost var st3 := ctx.Abs();
    ok := ctx.Write("}\n");
    RunOne(st3, Op.Write("}\n"));
    RunAppend(st0, arms + elseOps, [Op.Write("}\n")]);
    assert StmtOps(s, ko) == arms + elseOps + [Op.Write("}\n")];
  }

  /** The `elif` arms of a conditional, each body one level in. */
  method FormatElifs(ctx: FormatCtx, s: Statement, ko: KeyOrder)
    requires ctx.Valid() && s.Conditional? && WellFormed(s)
    modifies ctx, ctx.out
    decreases s, 0
    ensures ctx.Valid() && ctx.Abs() == Run(old(ctx.Abs()), ArmsOps(s, |s.cases|, ko))
  {
    ghost var st0 := ctx.Abs();
    var cases := s.cases;
    for i := 1 to |cases|
      invariant ctx.Valid() && ctx.Abs() == Run(st0, ArmsOps(s, i, ko))
    {
      ghost var done := ArmsOps(s, i, ko);
      ghost var st1 := ctx.Abs();
      var _ := ctx.Write("} elif " + cases[i].cond + " {\n");
      var _ := FormatBlockIndented(ctx, cases[i].body, ko);
      ghost var arm := [Op.Write("} elif " + cases[i].cond + " {\n"), Nest(BlockOps(cases[i].body, ko))];
      RunPair(st1, arm[0], arm[1]);
      RunAppend(st0, done, arm);
    }
  }

  /** The head of `Serialize`: each line of a non-empty description as a `#` comment. */
  method WriteDescription(ctx: FormatCtx, description: string)
    requires ctx.Valid()
    modifies ctx, ctx.out
    ensures ctx.Valid() && ctx.Abs() == Run(old(ctx.Abs()), DescriptionOps(description))
  {
    ghost var st0 := ctx.Abs();
    if description == "" {
      return;
    }
    var lines := Split(description, '\n');
    for i := 0 to |lines|
      invariant ctx.Valid()
      invariant ctx.Abs() == Run(st0, CommentOps(lines[..i]))
    {
      ghost var st1 := ctx.Abs();
      var _ := ctx.Write("# " + lines[i] + "\n");
      assert lines[..i + 1][..i] == lines[..i];
      RunOne(st1, Op.Write("# " + lines[i] + "\n"));
      RunAppend(st0, CommentOps(lines[..i]), [Op.Write("# " + lines[i] + "\n")]);
    }
    assert lines[..|lines|] == lines;
  }

  /**
   * `Serialize`: prints `p` into a writer with room for `capacity`
   * characters. The writer ends up with the first `capacity` characters of
   * the program text, and an error is reported exactly when the text does
   * not fit. `ko` is the order of the map walk, which visits every key of a
   * parameter object once (`KeyPrintedOnce`).
   */
  method Serialize(p: Pipeline, ko: KeyOrder, capacity: nat) returns (written: string, ok: bool)
    requires WellFormedBlock(p.block)
    requires ValidOrder(ko)
    ensures written == Trunc(SerializeText(p, ko), capacity)
    ensures ok <==> |SerializeText(p, ko)| <= capacity
  {
    var out := new Sink(capacity);
    var ctx := new FormatCtx(out);
    ghost var st0 := ctx.Abs();
    var blk := GuardedBlock(p);
    WriteDescription(ctx, p.description);
    ghost var desc := DescriptionOps(p.description);
    ghost var st1 := ctx.Abs();
    var _ := ctx.Write("filter {\n");
    var _ := FormatBlockIndented(ctx, blk, ko);
    ok := ctx.Write("}\n");
    written := out.data;
    ghost var tail := [Op.Write("filter {\n"), Nest(BlockOps(blk, ko)), Op.Write("}\n")];
    RunTriple(st1, tail[0], tail[1], tail[2]);
    RunAppend(st0, desc, tail);
    assert SerializeOps(p, ko) == desc + tail;
  }
}
