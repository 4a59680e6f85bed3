/**
 * The loop clause shared by every directive (`parse_for_loop`,
 * tmcf/command/build.py:85-118): `for <replacee> in <source>`, where the
 * source is an inline `range a:b[:c]`, a `range` over a configured integer or
 * list, or a configured list. It yields the one name to replace and the items
 * to iterate over, rendered by Python's `str()` when substituted.
 */
module Loops {
  import opened Wrappers
  import opened Errors
  import opened Text
  import opened Config

  /** `str(item)` for a loop item. */
  function Str(x: Scalar): string {
    match x
    case Int(n) => IntToString(n)
    case Bool(b) => if b then "True" else "False"
    case String(s) => s
    case Other(shown) => shown
  }

  /** The values of Python's `range(start, stop, step)`, for a non-zero step. */
  function PyRange(start: int, stop: int, step: int): seq<int>
    requires step != 0
    decreases if step > 0 then stop - start else start - stop
  {
    if (step > 0 && start < stop) || (step < 0 && start > stop) then
      [start] + PyRange(start + step, stop, step)
    else []
  }

  /** `range` yields the arithmetic sequence from `start` by `step` for as
      long as it stays short of `stop`, and no further. */
  lemma {:induction false} PyRangeElements(start: int, stop: int, step: int)
    requires step != 0
    ensures var r := PyRange(start, stop, step);
            && (forall k :: 0 <= k < |r| ==> r[k] == start + k * step)
            && (forall k :: 0 <= k < |r| ==> if step > 0 then r[k] < stop else r[k] > stop)
            && (if step > 0 then start + |r| * step >= stop else start + |r| * step <= stop)
    decreases if step > 0 then stop - start else start - stop
  {
    var r := PyRange(start, stop, step);
    if (step > 0 && start < stop) || (step < 0 && start > stop) {
      var rest := PyRange(start + step, stop, step);
      PyRangeElements(start + step, stop, step);
      assert r == [start] + rest;
      forall k | 0 <= k < |r|
        ensures r[k] == start + k * step
      {
        if k > 0 {
          assert r[k] == rest[k - 1];
          assert (k - 1) * step + step == k * step;
        }
      }
      assert (|r| - 1) * step + step == |r| * step;
    }
  }

  lemma RangeZeroSixTwo()
    ensures PyRange(0, 6, 2) == [0, 2, 4]
  {
    assert PyRange(6, 6, 2) == [];
    assert PyRange(4, 6, 2) == [4];
    assert PyRange(2, 6, 2) == [2, 4];
  }

  /** An argument Python's `range` accepts: an integer, or a boolean (an
      integer subclass). */
  function AsInt(x: Scalar): Option<int> {
    match x
    case Int(n) => Some(n)
    case Bool(b) => Some(if b then 1 else 0)
    case _ => None
  }

  function IntArgs(xs: seq<Scalar>): (r: Option<seq<int>>)
    ensures r.Some? ==> |r.value| == |xs| && forall i :: 0 <= i < |xs| ==> AsInt(xs[i]) == Some(r.value[i])
    ensures r.None? ==> exists i :: 0 <= i < |xs| && AsInt(xs[i]).None?
  {
    if xs == [] then Some([])
    else
      match (AsInt(xs[0]), IntArgs(xs[1..]))
      case (Some(n), Some(ns)) => Some([n] + ns)
      case (None, _) => None
      case (_, None) => None
  }

  function Ints(ns: seq<int>): (items: seq<Scalar>)
    ensures |items| == |ns| && forall i :: 0 <= i < |ns| ==> items[i] == Int(ns[i])
  {
    seq(|ns|, i requires 0 <= i < |ns| => Int(ns[i]))
  }

  /** `range(*args)`: one to three integer arguments and a non-zero step;
      anything else raises. */
  function RangeCall(args: seq<int>): Outcome<seq<Scalar>> {
    if |args| == 1 then Ok(Ints(PyRange(0, args[0], 1)))
    else if |args| == 2 then Ok(Ints(PyRange(args[0], args[1], 1)))
    else if |args| == 3 then
      if args[2] == 0 then Err(Crash(ValueError)) else Ok(Ints(PyRange(args[0], args[1], args[2])))
    else Err(Crash(TypeError))
  }

  /** `[int(a) for a in parts]` once every part is numeric. */
  function ParseAll(parts: seq<string>): seq<int>
    requires forall i :: 0 <= i < |parts| ==> IsNumeric(parts[i])
  {
    seq(|parts|, i requires 0 <= i < |parts| => assert IsNumeric(parts[i]); ParseDigits(parts[i]))
  }

  datatype Binding = Binding(replacee: string, items: seq<Scalar>)

  /** `range(*value)` for a list, `range(value)` for a number, and the fatal
      'impossible state' for anything else. */
  function ConfiguredItems(v: Value): Outcome<seq<Scalar>> {
    match v
    case List(args) => if IntArgs(args).None? then Err(Crash(TypeError)) else RangeCall(IntArgs(args).value)
    case Atom(Int(n)) => RangeCall([n])
    case Atom(Bool(b)) => RangeCall([if b then 1 else 0])
    case _ => Err(Fatal(RangeImpossible, Unplaced))
  }

  /** `parse_for_loop(tokens, ref)`, with `config["variables"]` passed as
      `vars` (`None` when the configuration has no variables table, where
      Python's lookup raises `KeyError`). The word before the replacee is
      never looked at. */
  function ParseForLoop(vars: Option<Fields>, tokens: seq<string>, at: Location): (r: Outcome<Binding>)
    ensures r.Ok? ==> && |tokens| >= 4 && tokens[2] == "in"
                      && (tokens[3] == "range" ==> |tokens| == 5)
                      && r.value.replacee == tokens[1]
  {
    if |tokens| < 4 then Err(Fatal(TooFewTokens, at))
    else if tokens[2] != "in" then Err(Fatal(ExpectedIn(tokens[2]), at))
    else if tokens[3] == "range" then
      if |tokens| != 5 then Err(Fatal(RangeTokenCount, at))
      else if vars.None? then Err(Crash(KeyError("variables")))
      else if Has(vars.value, tokens[4]) then
        var items :- ConfiguredItems(Get(vars.value, tokens[4]).value);
        Ok(Binding(tokens[1], items))
      else
        var parts := Split(tokens[4], ':');
        if !forall i :: 0 <= i < |parts| ==> IsNumeric(parts[i]) then Err(Fatal(RangeArguments(tokens[4]), at))
        else
          var items :- RangeCall(ParseAll(parts));
          Ok(Binding(tokens[1], items))
    else if vars.None? then Err(Crash(KeyError("variables")))
    else if !Has(vars.value, tokens[3]) then Err(Fatal(UnknownVariable(tokens[3]), at))
    else match Get(vars.value, tokens[3]).value
      case List(items) => Ok(Binding(tokens[1], items))
      case _ => Err(Fatal(NotAList(tokens[3]), at))
  }

  /** An inline `range a:b[:c]` whose parts are all numeric iterates over
      Python's `range(a, b[, c])`; a part that is not numeric is fatal. */
  lemma InlineRange(vars: Fields, tokens: seq<string>, at: Location)
    requires |tokens| == 5 && tokens[2] == "in" && tokens[3] == "range" && !Has(vars, tokens[4])
    ensures var parts := Split(tokens[4], ':');
            var r := ParseForLoop(Some(vars), tokens, at);
            && ((exists i :: 0 <= i < |parts| && !IsNumeric(parts[i])) <==> r == Err(Fatal(RangeArguments(tokens[4]), at)))
            && ((forall i :: 0 <= i < |parts| ==> IsNumeric(parts[i])) && 1 <= |parts| <= 3 ==>
                  var n := ParseAll(parts);
                  r == if |n| == 1 then Ok(Binding(tokens[1], Ints(PyRange(0, n[0], 1))))
                       else if |n| == 2 then Ok(Binding(tokens[1], Ints(PyRange(n[0], n[1], 1))))
                       else if n[2] == 0 then Err(Crash(ValueError))
                       else Ok(Binding(tokens[1], Ints(PyRange(n[0], n[1], n[2])))))
  {
    var parts := Split(tokens[4], ':');
    var r := ParseForLoop(Some(vars), tokens, at);
    if forall i :: 0 <= i < |parts| ==> IsNumeric(parts[i]) {
      var n := ParseAll(parts);
      var c := RangeCall(n);
      assert r == if c.Ok? then Ok(Binding(tokens[1], c.value)) else Err(c.error);
      if |n| == 1 {
        assert r == Ok(Binding(tokens[1], Ints(PyRange(0, n[0], 1))));
      } else if |n| == 2 {
        assert r == Ok(Binding(tokens[1], Ints(PyRange(n[0], n[1], 1))));
      } else if |n| == 3 {
        assert r == if n[2] == 0 then Err(Crash(ValueError)) else Ok(Binding(tokens[1], Ints(PyRange(n[0], n[1], n[2]))));
      } else {
        assert r == Err(Crash(TypeError));
      }
    } else {
      assert r == Err(Fatal(RangeArguments(tokens[4]), at));
    }
  }

  /** The pieces of the range `0:6:2`. */
  lemma RangeZeroSixTwoSplit()
    ensures Split("0:6:2", ':') == ["0", "6", "2"]
  {
    assert "0:6:2" == "0" + [':'] + "6:2";
    assert "6:2" == "6" + [':'] + "2";
    SplitPiece("0", ':', "6:2");
    SplitPiece("6", ':', "2");
    SplitWithout("2", ':');
  }

  /** The arguments of the range `0:6:2`. */
  lemma RangeZeroSixTwoArgs()
    ensures var parts := Split("0:6:2", ':');
            && (forall i :: 0 <= i < |parts| ==> IsNumeric(parts[i]))
            && ParseAll(parts) == [0, 6, 2]
  {
    RangeZeroSixTwoSplit();
    assert ParseDigits("6") == 6 by { assert "6"[..0] == ""; }
    assert ParseDigits("2") == 2 by { assert "2"[..0] == ""; }
    assert ParseDigits("0") == 0 by { assert "0"[..0] == ""; }
  }

  /** `#@ for $n in range 0:6:2` binds `$n` to 0, 2 and 4. */
  lemma InlineRangeExample(at: Location)
    ensures ParseForLoop(Some([]), ["for", "$n", "in", "range", "0:6:2"], at)
            == Ok(Binding("$n", [Int(0), Int(2), Int(4)]))
  {
    RangeZeroSixTwoArgs();
    assert !Has([], "0:6:2");
    RangeZeroSixTwo();
    assert RangeCall([0, 6, 2]) == Ok(Ints([0, 2, 4]));
    assert Ints([0, 2, 4]) == [Int(0), Int(2), Int(4)];
  }

  /** A `range` over a configured variable: a list of one to three integers
      is spread into `range` (a zero step raises `ValueError`, any other
      length or a non-integer element `TypeError`), an integer `n` is the stop
      value, a boolean counts as 0 or 1, and a string or a table is the fatal
      'impossible state'. */
  lemma ConfiguredRange(vars: Fields, tokens: seq<string>, at: Location)
    requires |tokens| == 5 && tokens[2] == "in" && tokens[3] == "range" && Has(vars, tokens[4])
    ensures var v := Get(vars, tokens[4]).value;
            var r := ParseForLoop(Some(vars), tokens, at);
            var x := tokens[1];
            && (v.List? && IntArgs(v.elems).None? ==> r == Err(Crash(TypeError)))
            && (v.List? && IntArgs(v.elems).Some? ==>
                  var a := IntArgs(v.elems).value;
                  && (|a| == 1 ==> r == Ok(Binding(x, Ints(PyRange(0, a[0], 1)))))
                  && (|a| == 2 ==> r == Ok(Binding(x, Ints(PyRange(a[0], a[1], 1)))))
                  && (|a| == 3 && a[2] != 0 ==> r == Ok(Binding(x, Ints(PyRange(a[0], a[1], a[2])))))
                  && (|a| == 3 && a[2] == 0 ==> r == Err(Crash(ValueError)))
                  && (|a| == 0 || |a| > 3 ==> r == Err(Crash(TypeError))))
            && (v.Atom? && v.scalar.Int? ==>
                  && r.Ok? && r.value.replacee == x
                  && |r.value.items| == (if v.scalar.n >= 0 then v.scalar.n else 0)
                  && forall k :: 0 <= k < |r.value.items| ==> r.value.items[k] == Int(k))
            && (v.Atom? && v.scalar.Bool? ==> r == Ok(Binding(x, if v.scalar.b then [Int(0)] else [])))
            && (v.Table? || (v.Atom? && (v.scalar.String? || v.scalar.Other?)) ==> r == Err(Fatal(RangeImpossible, Unplaced)))
  {
    var v := Get(vars, tokens[4]).value;
    var c := ConfiguredItems(v);
    ConfiguredItemsFacts(v);
    assert ParseForLoop(Some(vars), tokens, at) == if c.Ok? then Ok(Binding(tokens[1], c.value)) else Err(c.error);
  }

  /** The items of a configured range, case by case as `ConfiguredRange`
      states them for the loop clause. */
  lemma ConfiguredItemsFacts(v: Value)
    ensures var c := ConfiguredItems(v);
            && (v.List? && IntArgs(v.elems).None? ==> c == Err(Crash(TypeError)))
            && (v.List? && IntArgs(v.elems).Some? ==>
                  var a := IntArgs(v.elems).value;
                  && (|a| == 1 ==> c == Ok(Ints(PyRange(0, a[0], 1))))
                  && (|a| == 2 ==> c == Ok(Ints(PyRange(a[0], a[1], 1))))
                  && (|a| == 3 && a[2] != 0 ==> c == Ok(Ints(PyRange(a[0], a[1], a[2]))))
                  && (|a| == 3 && a[2] == 0 ==> c == Err(Crash(ValueError)))
                  && (|a| == 0 || |a| > 3 ==> c == Err(Crash(TypeError))))
            && (v.Atom? && v.scalar.Int? ==>
                  && c.Ok? && |c.value| == (if v.scalar.n >= 0 then v.scalar.n else 0)
                  && forall k :: 0 <= k < |c.value| ==> c.value[k] == Int(k))
            && (v.Atom? && v.scalar.Bool? ==> c == Ok(if v.scalar.b then [Int(0)] else []))
            && (v.Table? || (v.Atom? && (v.scalar.String? || v.scalar.Other?)) ==> c == Err(Fatal(RangeImpossible, Unplaced)))
  {
    match v
    case Atom(Int(n)) =>
      UpTo(n);
    case Atom(Bool(b)) =>
      if b {
        assert PyRange(1, 1, 1) == [];
        assert Ints(PyRange(0, 1, 1)) == [Int(0)];
      }
    case _ =>
  }

  /** `range(n)` is `0, 1, …, n - 1`, and empty when `n` is not positive. */
  lemma UpTo(n: int)
    ensures var q := PyRange(0, n, 1);
            && |q| == (if n >= 0 then n else 0)
            && forall k :: 0 <= k < |q| ==> q[k] == k
  {
    var q := PyRange(0, n, 1);
    PyRangeElements(0, n, 1);
    assert |q| * 1 == |q|;
    assert |q| > 0 ==> q[|q| - 1] == |q| - 1;
  }

  /** A non-range source must name a configured list, whose elements are the items. */
  lemma ListSource(vars: Fields, tokens: seq<string>, at: Location)
    requires |tokens| >= 4 && tokens[2] == "in" && tokens[3] != "range"
    ensures var r := ParseForLoop(Some(vars), tokens, at);
            && (!Has(vars, tokens[3]) <==> r == Err(Fatal(UnknownVariable(tokens[3]), at)))
            && (Has(vars, tokens[3]) ==>
                  var v := Get(vars, tokens[3]).value;
                  && (v.List? <==> r.Ok?)
                  && (v.List? ==> r == Ok(Binding(tokens[1], v.elems)))
                  && (!v.List? ==> r == Err(Fatal(NotAList(tokens[3]), at))))
  {
  }

  /** The shape checks of a loop clause come first, in this order: fewer than
      four words, a third word other than `in`, a `range` clause that is not
      exactly five words. */
  lemma ClauseErrors(vars: Option<Fields>, tokens: seq<string>, at: Location)
    ensures |tokens| < 4 ==> ParseForLoop(vars, tokens, at) == Err(Fatal(TooFewTokens, at))
    ensures |tokens| >= 4 && tokens[2] != "in" ==> ParseForLoop(vars, tokens, at) == Err(Fatal(ExpectedIn(tokens[2]), at))
    ensures |tokens| >= 4 && tokens[2] == "in" && tokens[3] == "range" && |tokens| != 5 ==>
              ParseForLoop(vars, tokens, at) == Err(Fatal(RangeTokenCount, at))
  {
  }
}
