/**
 * `process_json` of tmcf/command/build.py: a walk over a parsed JSON file that
 * expands `"tmcf": "for …"` objects inside arrays. The program mutates the
 * tree in place; the model threads the tree through the walk as a value and
 * returns the updated node, so that what the program does to a parent array
 * while one of its elements is being walked (remove the element, append the
 * copies) comes back to the array's walk as an `Expansion`.
 *
 * `json.dumps` and `json.loads` are library code: they are parameters of the
 * walk (`Codec`). The program's walk need not end (a substituted copy can hold
 * a new directive), so the walk carries a budget of node visits and stops
 * with `OutOfFuel` when it is spent.
 */
module JsonTree {
  import opened Wrappers
  import opened Errors
  import opened Text
  import opened Config
  import opened Loops
  import Logging

  /** A parsed JSON value. Numbers keep whether they were written as integers. */
  datatype Json =
    | JNull
    | JBool(b: bool)
    | JInt(i: int)
    | JReal(r: real)
    | JStr(s: string)
    | JArr(elems: seq<Json>)
    | JObj(fields: seq<(string, Json)>)
  {
    predicate IsContainer() { JArr? || JObj? }
  }

  /** `json.dumps(obj)`, `json.loads(text)` (`None` when the text is not
      JSON) and `json.dumps(obj, indent = 2)`. */
  datatype Codec = Codec(dumps: Json -> string, loads: string -> Option<Json>, pretty: Json -> string)

  /** A number as Python compares it: `True == 1 == 1.0`. */
  function Numeric(v: Json): real
    requires v.JBool? || v.JInt? || v.JReal?
  {
    match v
    case JBool(b) => if b then 1.0 else 0.0
    case JInt(i) => i as real
    case JReal(r) => r
  }

  /** Python's `==` on loaded JSON values: numbers by value, arrays element by
      element, objects as dictionaries (same size, and every key of one maps
      to an equal value in the other). */
  function Same(a: Json, b: Json): bool
    decreases a
  {
    if (a.JBool? || a.JInt? || a.JReal?) && (b.JBool? || b.JInt? || b.JReal?) then Numeric(a) == Numeric(b)
    else match (a, b)
      case (JNull, JNull) => true
      case (JStr(s), JStr(t)) => s == t
      case (JArr(xs), JArr(ys)) =>
        |xs| == |ys| && forall k :: 0 <= k < |xs| ==> Same(xs[k], ys[k])
      case (JObj(fs), JObj(gs)) =>
        |fs| == |gs| && forall k :: 0 <= k < |fs| ==>
          exists m :: 0 <= m < |gs| && gs[m].0 == fs[k].0 && Same(fs[k].1, gs[m].1)
      case _ => false
  }

  /** The index `list.remove(x)` takes out when `x` itself sits at `i`: the
      first element equal to `x`, or `i` when none before it is. */
  function FirstSame(es: seq<Json>, x: Json, i: nat): (r: nat)
    requires i < |es|
    ensures r <= i && (r < i ==> Same(es[r], x))
    ensures forall j :: 0 <= j < r ==> !Same(es[j], x)
  {
    if i == 0 || Same(es[0], x) then 0 else 1 + FirstSame(es[1..], x, i - 1)
  }

  /** `obj.pop(key)`: the fields without `key`. */
  function Pop(fs: seq<(string, Json)>, key: string): (r: seq<(string, Json)>)
    ensures forall k :: 0 <= k < |r| ==> r[k].0 != key
    ensures |r| <= |fs|
  {
    if fs == [] then []
    else if fs[0].0 == key then Pop(fs[1..], key)
    else [fs[0]] + Pop(fs[1..], key)
  }

  /** `pop` keeps every other field: a field is in the result exactly when
      it was in the object under another key, and an object without the key
      comes back whole. `PopAt` gives the order. */
  lemma {:induction false} PopFacts(fs: seq<(string, Json)>, key: string)
    ensures forall p :: p in Pop(fs, key) <==> p in fs && p.0 != key
    ensures (forall k :: 0 <= k < |fs| ==> fs[k].0 != key) ==> Pop(fs, key) == fs
  {
    if fs != [] {
      PopFacts(fs[1..], key);
      assert fs == [fs[0]] + fs[1..];
    }
  }

  /** An object holding the key once loses exactly that field, and the
      fields before and after it keep their order. */
  lemma {:induction false} PopAt(fs: seq<(string, Json)>, key: string, j: nat)
    requires j < |fs| && fs[j].0 == key
    requires forall k :: 0 <= k < |fs| && k != j ==> fs[k].0 != key
    ensures Pop(fs, key) == fs[..j] + fs[j + 1..]
  {
    if j == 0 {
      PopFacts(fs[1..], key);
    } else {
      PopAt(fs[1..], key, j - 1);
      assert fs[..j] == [fs[0]] + fs[1..][..j - 1];
      assert fs[j + 1..] == fs[1..][j..];
    }
  }

  /** What walking an object does to the array holding it: the object as it
      was when removed (its directive key still there) and the copies to
      append. */
  datatype Expansion = Expansion(original: Json, copies: seq<Json>)

  /** A walked node, the budget left, and the expansion its parent array must
      apply, if any. */
  datatype Walked = Walked(node: Json, fuel: nat, expansion: Option<Expansion>)

  /** `json.loads(self.replace(replacee, str(item)))` */
  function Load(c: Codec, self: string, replacee: string, item: Scalar): Outcome<Json> {
    match c.loads(Replace(self, replacee, Str(item)))
    case None => Err(Crash(JsonDecodeError))
    case Some(v) => Ok(v)
  }

  /** The copies for `items[k..]`, none of them walked. */
  function LoadFrom(c: Codec, self: string, replacee: string, items: seq<Scalar>, k: nat): (r: Outcome<seq<Json>>)
    requires k <= |items|
    ensures r.Ok? ==> |r.value| == |items| - k
    decreases |items| - k
  {
    if k == |items| then Ok([])
    else
      var v :- Load(c, self, replacee, items[k]);
      var rest :- LoadFrom(c, self, replacee, items, k + 1);
      Ok([v] + rest)
  }

  /** `process_json(object, path, parent)`: one visit costs one unit of fuel.
      An array is walked element by element; an object field by field; any
      other value has no `.items()` and raises. */
  function WalkNode(c: Codec, vars: Option<Fields>, tagged: bool, fuel: nat, node: Json, inList: bool): (r: Outcome<Walked>)
    ensures r.Ok? ==> r.value.fuel < fuel
    ensures r.Ok? && r.value.expansion.Some? ==> inList
    decreases fuel, 0, 0
  {
    if fuel == 0 then Err(OutOfFuel)
    else match node
      case JArr(es) =>
        var (es', left) :- WalkList(c, vars, tagged, fuel - 1, es, 0);
        Ok(Walked(JArr(es'), left, None))
      case JObj(fs) => WalkFields(c, vars, tagged, fuel - 1, fs, 0, inList)
      case _ => Err(Crash(AttributeError))
  }

  /** `for obj in object` over the live array from index `i`: containers are
      walked with the array as parent, other values are passed over. An
      expansion replaces the element by its walked state, removes the first
      element equal to it, and appends the copies; the walk goes on at `i + 1`,
      which passes over the element that moved into place `i`; the array's
      iterator stops once its index reaches the array's length. */
  function WalkList(c: Codec, vars: Option<Fields>, tagged: bool, fuel: nat, es: seq<Json>, i: nat): (r: Outcome<(seq<Json>, nat)>)
    ensures r.Ok? ==> r.value.1 <= fuel
    decreases fuel, 3, |es| - i
  {
    if i >= |es| then Ok((es, fuel))
    else if !es[i].IsContainer() then WalkList(c, vars, tagged, fuel, es, i + 1)
    else
      var w :- WalkNode(c, vars, tagged, fuel, es[i], true);
      match w.expansion
      case None => WalkList(c, vars, tagged, w.fuel, es[i := w.node], i + 1)
      case Some(e) => WalkList(c, vars, tagged, w.fuel, Expanded(es, i, w.node, e), i + 1)
  }

  /** The array after `parent.remove(object)`, `object.pop("tmcf")` and the
      appends, with the object at `i`. When an earlier element equals the
      object, that one goes, and the object (now without its key) stays. */
  function Expanded(es: seq<Json>, i: nat, popped: Json, e: Expansion): (r: seq<Json>)
    requires i < |es|
    ensures |r| == |es| - 1 + |e.copies|
    ensures r[|es| - 1..] == e.copies
  {
    var es1 := es[i := e.original];
    var k := FirstSame(es1, e.original, i);
    var es2 := es1[..k] + es1[k + 1..];
    (if k < i then es2[i - 1 := popped] else es2) + e.copies
  }

  /** `for [key, value] in object.items()` from field `j`. A container value
      is walked with the object as parent; a `tmcf` key with any other value
      is a directive; other fields are passed over. */
  function WalkFields(c: Codec, vars: Option<Fields>, tagged: bool, fuel: nat, fs: seq<(string, Json)>, j: nat, inList: bool): (r: Outcome<Walked>)
    requires j <= |fs|
    ensures r.Ok? ==> r.value.fuel <= fuel
    ensures r.Ok? && r.value.expansion.Some? ==> inList
    decreases fuel, 3, |fs| - j
  {
    if j == |fs| then Ok(Walked(JObj(fs), fuel, None))
    else if fs[j].1.IsContainer() then
      var w :- WalkNode(c, vars, tagged, fuel, fs[j].1, false);
      WalkFields(c, vars, tagged, w.fuel, fs[j := (fs[j].0, w.node)], j + 1, inList)
    else if fs[j].0 == "tmcf" then Directive(c, vars, tagged, fuel, fs, fs[j].1, inList)
    else WalkFields(c, vars, tagged, fuel, fs, j + 1, inList)
  }

  /** `l.fatal(message, generic_ref(path))`: the tag is made before the
      message is shown, and when `generic_ref` raises (`tagged` false) the
      build ends with its `TypeError` instead. */
  function FatalInFile(tagged: bool, reason: Reason): Error {
    if tagged then Fatal(reason, InFile) else Crash(TypeError)
  }

  /** The `tmcf` key of the object `fs` holds `value`. Only a string can be
      split; its first word decides. `for` needs an array parent; the object
      loses the key, the tag `generic_ref(path)` is made for the clause, and
      each item is substituted into the serialised object and parsed back, the
      first copy being walked with the object as parent. `generate` ends the
      object's walk; any other word is fatal. */
  function Directive(c: Codec, vars: Option<Fields>, tagged: bool, fuel: nat, fs: seq<(string, Json)>, value: Json, inList: bool): (r: Outcome<Walked>)
    ensures r.Ok? ==> r.value.fuel <= fuel
    ensures r.Ok? && r.value.expansion.Some? ==> inList
    decreases fuel, 2, 0
  {
    if !value.JStr? then Err(Crash(AttributeError))
    else
      var tokens := Split(value.s, ' ');
      if tokens[0] == "for" then
        if !inList then Err(FatalInFile(tagged, ForOutsideArray))
        else if !tagged then Err(Crash(TypeError))
        else
          var popped := JObj(Pop(fs, "tmcf"));
          var b :- ParseForLoop(vars, tokens, InFile);
          var (copies, left) :- Copies(c, vars, tagged, fuel, c.dumps(popped), b);
          Ok(Walked(popped, left, Some(Expansion(JObj(fs), copies))))
      else if tokens[0] == "generate" then Ok(Walked(JObj(fs), fuel, None))
      else Err(FatalInFile(tagged, UnexpectedToken(tokens[0])))
  }

  /** The loop over the items: each copy is parsed in turn, and the first is
      walked before the second is parsed. */
  function Copies(c: Codec, vars: Option<Fields>, tagged: bool, fuel: nat, self: string, b: Binding): (r: Outcome<(seq<Json>, nat)>)
    ensures r.Ok? ==> |r.value.0| == |b.items| && r.value.1 <= fuel
    decreases fuel, 1, 0
  {
    if |b.items| == 0 then Ok(([], fuel))
    else
      var first :- Load(c, self, b.replacee, b.items[0]);
      var w :- WalkNode(c, vars, tagged, fuel, first, false);
      var rest :- LoadFrom(c, self, b.replacee, b.items, 1);
      Ok(([w.node] + rest, w.fuel))
  }

  /** A JSON file's output: the walked document, written with an indent of 2.
      The top-level value has no parent. `tagged` tells whether the file's
      tag `generic_ref(path)` can be made. */
  function JsonFile(c: Codec, vars: Option<Fields>, path: string, fuel: nat, doc: Json): Outcome<string> {
    var w :- WalkNode(c, vars, Logging.GenericRefText(path).Some?, fuel, doc, false);
    Ok(c.pretty(w.node))
  }

  /** The copies made so far, `acc`, ahead of the rest still to be parsed. */
  function PrefixCopies(acc: seq<Json>, fuel: nat, r: Outcome<seq<Json>>): Outcome<(seq<Json>, nat)> {
    match r
    case Ok(rest) => Ok((acc + rest, fuel))
    case Err(e) => Err(e)
  }

  lemma LoadStep(c: Codec, self: string, replacee: string, items: seq<Scalar>, k: nat, v: Json, acc: seq<Json>, fuel: nat)
    requires k < |items| && Load(c, self, replacee, items[k]) == Ok(v)
    ensures PrefixCopies(acc, fuel, LoadFrom(c, self, replacee, items, k))
            == PrefixCopies(acc + [v], fuel, LoadFrom(c, self, replacee, items, k + 1))
  {
    var r := LoadFrom(c, self, replacee, items, k + 1);
    if r.Ok? {
      assert acc + ([v] + r.value) == acc + [v] + r.value;
    }
  }

  /** `process_json(object, path, parent)`, with `inList` telling whether
      `parent` is a list. */
  method ProcessJson(c: Codec, vars: Option<Fields>, tagged: bool, fuel: nat, node: Json, inList: bool) returns (r: Outcome<Walked>)
    ensures r == WalkNode(c, vars, tagged, fuel, node, inList)
    decreases fuel, 0, 0
  {
    if fuel == 0 {
      return Err(OutOfFuel);
    }
    match node
    case JArr(es) =>
      var l := ProcessList(c, vars, tagged, fuel - 1, es);
      if l.Err? {
        return Err(l.error);
      }
      return Ok(Walked(JArr(l.value.0), l.value.1, None));
    case JObj(fs) =>
      r := ProcessFields(c, vars, tagged, fuel - 1, fs, inList);
    case _ =>
      return Err(Crash(AttributeError));
  }

  /** `for obj in object` over an array that the walk of its elements may
      shrink and extend. */
  method ProcessList(c: Codec, vars: Option<Fields>, tagged: bool, fuel: nat, es0: seq<Json>) returns (r: Outcome<(seq<Json>, nat)>)
    ensures r == WalkList(c, vars, tagged, fuel, es0, 0)
    decreases fuel, 3, |es0|
  {
    var es := es0;
    var i := 0;
    var f: nat := fuel;
    while i < |es|
      invariant f <= fuel
      invariant WalkList(c, vars, tagged, f, es, i) == WalkList(c, vars, tagged, fuel, es0, 0)
      decreases f, |es| - i
    {
      if es[i].IsContainer() {
        var w := ProcessJson(c, vars, tagged, f, es[i], true);
        if w.Err? {
          return Err(w.error);
        }
        match w.value.expansion {
        case None =>
          assert WalkList(c, vars, tagged, f, es, i) == WalkList(c, vars, tagged, w.value.fuel, es[i := w.value.node], i + 1);
          es := es[i := w.value.node];
        case Some(e) =>
          assert WalkList(c, vars, tagged, f, es, i) == WalkList(c, vars, tagged, w.value.fuel, Expanded(es, i, w.value.node, e), i + 1);
          es := Expanded(es, i, w.value.node, e);
        }
        f := w.value.fuel;
      }
      i := i + 1;
    }
    return Ok((es, f));
  }

  /** `for [key, value] in object.items()`, walking container values in
      place until a directive ends the object's walk. */
  method ProcessFields(c: Codec, vars: Option<Fields>, tagged: bool, fuel: nat, fs0: seq<(string, Json)>, inList: bool) returns (r: Outcome<Walked>)
    ensures r == WalkFields(c, vars, tagged, fuel, fs0, 0, inList)
    decreases fuel, 3, |fs0|
  {
    var fs := fs0;
    var j := 0;
    var f: nat := fuel;
    while j < |fs|
      invariant |fs| == |fs0| && j <= |fs| && f <= fuel
      invariant WalkFields(c, vars, tagged, f, fs, j, inList) == WalkFields(c, vars, tagged, fuel, fs0, 0, inList)
      decreases |fs| - j
    {
      var (key, value) := fs[j];
      if value.IsContainer() {
        var w := ProcessJson(c, vars, tagged, f, value, false);
        if w.Err? {
          return Err(w.error);
        }
        fs := fs[j := (key, w.value.node)];
        f := w.value.fuel;
      } else if key == "tmcf" {
        r := RunDirective(c, vars, tagged, f, fs, value, inList);
        return;
      }
      j := j + 1;
    }
    return Ok(Walked(JObj(fs), f, None));
  }

  /** The `match tokens[0]` on a `tmcf` key's value. */
  method RunDirective(c: Codec, vars: Option<Fields>, tagged: bool, fuel: nat, fs: seq<(string, Json)>, value: Json, inList: bool)
    returns (r: Outcome<Walked>)
    ensures r == Directive(c, vars, tagged, fuel, fs, value, inList)
    decreases fuel, 2, 0
  {
    if !value.JStr? {
      return Err(Crash(AttributeError));
    }
    var tokens := Split(value.s, ' ');
    if tokens[0] == "for" {
      if !inList {
        return Err(FatalInFile(tagged, ForOutsideArray));
      }
      if !tagged {
        return Err(Crash(TypeError));
      }
      var popped := JObj(Pop(fs, "tmcf"));
      var b := ParseForLoop(vars, tokens, InFile);
      if b.Err? {
        return Err(b.error);
      }
      var made := MakeCopies(c, vars, tagged, fuel, c.dumps(popped), b.value);
      if made.Err? {
        return Err(made.error);
      }
      return Ok(Walked(popped, made.value.1, Some(Expansion(JObj(fs), made.value.0))));
    } else if tokens[0] == "generate" {
      return Ok(Walked(JObj(fs), fuel, None));
    } else {
      return Err(FatalInFile(tagged, UnexpectedToken(tokens[0])));
    }
  }

  /** `for [i, item] in enumerate(items)`: parse each copy, walk the first. */
  method MakeCopies(c: Codec, vars: Option<Fields>, tagged: bool, fuel: nat, self: string, b: Binding) returns (r: Outcome<(seq<Json>, nat)>)
    ensures r == Copies(c, vars, tagged, fuel, self, b)
    decreases fuel, 1, 0
  {
    var copies: seq<Json> := [];
    var f: nat := fuel;
    for k := 0 to |b.items|
      invariant |copies| == k && f <= fuel && (k == 0 ==> f == fuel)
      invariant k >= 1 ==> Copies(c, vars, tagged, fuel, self, b) == PrefixCopies(copies, f, LoadFrom(c, self, b.replacee, b.items, k))
    {
      var replaced := c.loads(Replace(self, b.replacee, Str(b.items[k])));
      if replaced.None? {
        return Err(Crash(JsonDecodeError));
      }
      var copy := replaced.value;
      assert Load(c, self, b.replacee, b.items[k]) == Ok(copy);
      if k == 0 {
        var w := ProcessJson(c, vars, tagged, f, copy, false);
        if w.Err? {
          return Err(w.error);
        }
        assert Copies(c, vars, tagged, fuel, self, b) == PrefixCopies([w.value.node], w.value.fuel, LoadFrom(c, self, b.replacee, b.items, 1));
        copy := w.value.node;
        f := w.value.fuel;
        copies := copies + [copy];
        assert copies == [w.value.node];
      } else {
        LoadStep(c, self, b.replacee, b.items, k, copy, copies, f);
        copies := copies + [copy];
      }
    }
    if |b.items| == 0 {
      return Ok(([], fuel));
    }
    assert copies + [] == copies;
    return Ok((copies, f));
  }

  /** The number of arrays and objects in `v`: the visits its walk makes
      when nothing in it is expanded. */
  function Visits(v: Json): nat
    decreases v, 1, 0
  {
    match v
    case JArr(es) => 1 + VisitsFrom(es, 0)
    case JObj(fs) => 1 + FieldVisitsFrom(fs, 0)
    case _ => 0
  }

  function VisitsFrom(es: seq<Json>, i: nat): nat
    decreases JArr(es), 0, |es| - i
  {
    if i >= |es| then 0 else Visits(es[i]) + VisitsFrom(es, i + 1)
  }

  function FieldVisitsFrom(fs: seq<(string, Json)>, j: nat): nat
    decreases JObj(fs), 0, |fs| - j
  {
    if j >= |fs| then 0 else Visits(fs[j].1) + FieldVisitsFrom(fs, j + 1)
  }

  /** No `tmcf` key anywhere in `v` holds anything but an array or object. */
  predicate Plain(v: Json)
    decreases v
  {
    match v
    case JArr(es) => forall k :: 0 <= k < |es| ==> Plain(es[k])
    case JObj(fs) => forall k :: 0 <= k < |fs| ==> PlainField(fs[k])
    case _ => true
  }

  predicate PlainField(f: (string, Json))
    decreases f
  {
    if f.1.IsContainer() then Plain(f.1) else f.0 != "tmcf"
  }

  /** A tree without directives comes out of the walk unchanged, having used
      one unit of fuel per array and object in it. */
  lemma {:induction false} PlainNode(c: Codec, vars: Option<Fields>, tagged: bool, fuel: nat, v: Json, inList: bool)
    requires v.IsContainer() && Plain(v) && fuel >= Visits(v)
    ensures WalkNode(c, vars, tagged, fuel, v, inList) == Ok(Walked(v, fuel - Visits(v), None))
    decreases v, 1, 0
  {
    match v
    case JArr(es) =>
      PlainList(c, vars, tagged, fuel - 1, es, 0);
    case JObj(fs) =>
      PlainFields(c, vars, tagged, fuel - 1, fs, 0, inList);
  }

  lemma {:induction false} PlainList(c: Codec, vars: Option<Fields>, tagged: bool, fuel: nat, es: seq<Json>, i: nat)
    requires forall k :: i <= k < |es| ==> Plain(es[k])
    requires fuel >= VisitsFrom(es, i)
    ensures WalkList(c, vars, tagged, fuel, es, i) == Ok((es, fuel - VisitsFrom(es, i)))
    decreases JArr(es), 0, |es| - i
  {
    if i < |es| {
      if es[i].IsContainer() {
        PlainNode(c, vars, tagged, fuel, es[i], true);
        assert es[i := es[i]] == es;
        PlainList(c, vars, tagged, fuel - Visits(es[i]), es, i + 1);
      } else {
        PlainList(c, vars, tagged, fuel, es, i + 1);
      }
    }
  }

  lemma {:induction false} PlainFields(c: Codec, vars: Option<Fields>, tagged: bool, fuel: nat, fs: seq<(string, Json)>, j: nat, inList: bool)
    requires j <= |fs| && forall k :: j <= k < |fs| ==> PlainField(fs[k])
    requires fuel >= FieldVisitsFrom(fs, j)
    ensures WalkFields(c, vars, tagged, fuel, fs, j, inList) == Ok(Walked(JObj(fs), fuel - FieldVisitsFrom(fs, j), None))
    decreases JObj(fs), 0, |fs| - j
  {
    if j < |fs| {
      if fs[j].1.IsContainer() {
        PlainNode(c, vars, tagged, fuel, fs[j].1, false);
        assert fs[j := (fs[j].0, fs[j].1)] == fs;
        PlainFields(c, vars, tagged, fuel - Visits(fs[j].1), fs, j + 1, inList);
      } else {
        PlainFields(c, vars, tagged, fuel, fs, j + 1, inList);
      }
    }
  }

  /** A JSON file without directives is written back as it was read. */
  lemma PlainJsonFile(c: Codec, vars: Option<Fields>, path: string, fuel: nat, doc: Json)
    requires doc.IsContainer() && Plain(doc) && fuel >= Visits(doc)
    ensures JsonFile(c, vars, path, fuel, doc) == Ok(c.pretty(doc))
  {
    PlainNode(c, vars, Logging.GenericRefText(path).Some?, fuel, doc, false);
  }

  /** A file whose top-level value is not an array or object raises. */
  lemma ScalarDocument(c: Codec, vars: Option<Fields>, path: string, fuel: nat, doc: Json)
    requires fuel >= 1 && !doc.IsContainer()
    ensures JsonFile(c, vars, path, fuel, doc) == Err(Crash(AttributeError))
  {
  }

  /** No field from `j` to `m - 1` is a directive: each holds a container or
      has a key other than `tmcf`. */
  predicate NoDirectiveIn(fs: seq<(string, Json)>, j: nat, m: nat)
    requires j <= m <= |fs|
  {
    forall k :: j <= k < m ==> fs[k].1.IsContainer() || fs[k].0 != "tmcf"
  }

  /** The walk of the fields `j` to `m - 1` of an object: each container value
      is walked in place with the object as parent, the other fields are
      passed over. Keys and the fields from `m` on stay as they were. */
  function WalkUpTo(c: Codec, vars: Option<Fields>, tagged: bool, fuel: nat, fs: seq<(string, Json)>, j: nat, m: nat)
    : (r: Outcome<(seq<(string, Json)>, nat)>)
    requires j <= m <= |fs|
    ensures r.Ok? ==> && |r.value.0| == |fs| && r.value.1 <= fuel
                      && forall k :: 0 <= k < |fs| ==> r.value.0[k].0 == fs[k].0 && (k >= m ==> r.value.0[k] == fs[k])
    decreases m - j
  {
    if j == m then Ok((fs, fuel))
    else if fs[j].1.IsContainer() then
      var w :- WalkNode(c, vars, tagged, fuel, fs[j].1, false);
      WalkUpTo(c, vars, tagged, w.fuel, fs[j := (fs[j].0, w.node)], j + 1, m)
    else WalkUpTo(c, vars, tagged, fuel, fs, j + 1, m)
  }

  /** The walk of an object's fields, up to a field `m` that no directive
      precedes, is `WalkUpTo`; it then goes on from `m` with the walked fields. */
  lemma {:induction false} WalkThrough(c: Codec, vars: Option<Fields>, tagged: bool, fuel: nat, fs: seq<(string, Json)>, j: nat, m: nat, inList: bool)
    requires j <= m <= |fs| && NoDirectiveIn(fs, j, m)
    ensures var u := WalkUpTo(c, vars, tagged, fuel, fs, j, m);
            var r := WalkFields(c, vars, tagged, fuel, fs, j, inList);
            && (u.Err? ==> r == Err(u.error))
            && (u.Ok? ==> r == WalkFields(c, vars, tagged, u.value.1, u.value.0, m, inList))
    decreases m - j
  {
    if j < m {
      if fs[j].1.IsContainer() {
        var w := WalkNode(c, vars, tagged, fuel, fs[j].1, false);
        if w.Ok? {
          WalkThrough(c, vars, tagged, w.value.fuel, fs[j := (fs[j].0, w.value.node)], j + 1, m, inList);
        }
      } else {
        WalkThrough(c, vars, tagged, fuel, fs, j + 1, m, inList);
      }
    }
  }

  /** An object whose walk reaches a `for` directive is fatal when it is not
      inside an array, the top-level value included; the container fields
      before the directive are walked first, and their errors come first. */
  lemma ForOutsideArrayFatal(c: Codec, vars: Option<Fields>, tagged: bool, fuel: nat, fs: seq<(string, Json)>, j: nat, s: string)
    requires fuel >= 1 && j < |fs| && NoDirectiveIn(fs, 0, j) && fs[j] == ("tmcf", JStr(s)) && Split(s, ' ')[0] == "for"
    ensures var u := WalkUpTo(c, vars, tagged, fuel - 1, fs, 0, j);
            var r := WalkNode(c, vars, tagged, fuel, JObj(fs), false);
            && (u.Err? ==> r == Err(u.error))
            && (u.Ok? && tagged ==> r == Err(Fatal(ForOutsideArray, InFile)))
            && (u.Ok? && !tagged ==> r == Err(Crash(TypeError)))
  {
    WalkThrough(c, vars, tagged, fuel - 1, fs, 0, j, false);
  }

  /** A `generate` directive ends the object's walk: the object keeps its
      fields, with only those before the directive walked, and the fields
      after it are not walked. */
  lemma GenerateStops(c: Codec, vars: Option<Fields>, tagged: bool, fuel: nat, fs: seq<(string, Json)>, j: nat, s: string, inList: bool)
    requires fuel >= 1 && j < |fs| && NoDirectiveIn(fs, 0, j) && fs[j] == ("tmcf", JStr(s)) && Split(s, ' ')[0] == "generate"
    ensures var u := WalkUpTo(c, vars, tagged, fuel - 1, fs, 0, j);
            var r := WalkNode(c, vars, tagged, fuel, JObj(fs), inList);
            && (u.Err? ==> r == Err(u.error))
            && (u.Ok? ==> r == Ok(Walked(JObj(u.value.0), u.value.1, None)))
  {
    WalkThrough(c, vars, tagged, fuel - 1, fs, 0, j, inList);
  }

  /** Inside an array, the walk goes on with the next element, the object
      replaced by its walked state. */
  lemma GenerateSkipped(c: Codec, vars: Option<Fields>, tagged: bool, fuel: nat, es: seq<Json>, i: nat, fs: seq<(string, Json)>, j: nat, s: string)
    requires fuel >= 1 && i < |es| && es[i] == JObj(fs)
    requires j < |fs| && NoDirectiveIn(fs, 0, j) && fs[j] == ("tmcf", JStr(s)) && Split(s, ' ')[0] == "generate"
    ensures var u := WalkUpTo(c, vars, tagged, fuel - 1, fs, 0, j);
            var r := WalkList(c, vars, tagged, fuel, es, i);
            && (u.Err? ==> r == Err(u.error))
            && (u.Ok? ==> r == WalkList(c, vars, tagged, u.value.1, es[i := JObj(u.value.0)], i + 1))
  {
    GenerateStops(c, vars, tagged, fuel, fs, j, s, true);
  }

  /** A `tmcf` key holding a number, boolean or null raises, and an unknown
      directive word is fatal wherever the object sits (a `TypeError` when
      the file's tag cannot be made). */
  lemma BadDirective(c: Codec, vars: Option<Fields>, tagged: bool, fuel: nat, fs: seq<(string, Json)>, j: nat, inList: bool)
    requires fuel >= 1 && j < |fs| && NoDirectiveIn(fs, 0, j) && fs[j].0 == "tmcf" && !fs[j].1.IsContainer()
    ensures var u := WalkUpTo(c, vars, tagged, fuel - 1, fs, 0, j);
            var r := WalkNode(c, vars, tagged, fuel, JObj(fs), inList);
            && (u.Err? ==> r == Err(u.error))
            && (u.Ok? && !fs[j].1.JStr? ==> r == Err(Crash(AttributeError)))
            && (u.Ok? && fs[j].1.JStr? && Split(fs[j].1.s, ' ')[0] !in {"for", "generate"} ==>
                  r == Err(FatalInFile(tagged, UnexpectedToken(Split(fs[j].1.s, ' ')[0]))))
  {
    WalkThrough(c, vars, tagged, fuel - 1, fs, 0, j, inList);
  }

  lemma {:induction false} LoadFromFacts(c: Codec, self: string, replacee: string, items: seq<Scalar>, k: nat)
    requires k <= |items| && LoadFrom(c, self, replacee, items, k).Ok?
    ensures var v := LoadFrom(c, self, replacee, items, k).value;
            forall m :: k <= m < |items| ==> Load(c, self, replacee, items[m]) == Ok(v[m - k])
    decreases |items| - k
  {
    if k < |items| {
      LoadFromFacts(c, self, replacee, items, k + 1);
    }
  }

  /** One copy per item, in item order: the first is the parsed substitution
      walked once with the object as parent, every other one is the parsed
      substitution as it is. */
  lemma CopiesFacts(c: Codec, vars: Option<Fields>, tagged: bool, fuel: nat, self: string, b: Binding)
    requires Copies(c, vars, tagged, fuel, self, b).Ok?
    ensures var (copies, left) := Copies(c, vars, tagged, fuel, self, b).value;
            && |copies| == |b.items|
            && (|copies| == 0 ==> left == fuel)
            && (|copies| > 0 ==> Load(c, self, b.replacee, b.items[0]).Ok?
                                 && WalkNode(c, vars, tagged, fuel, Load(c, self, b.replacee, b.items[0]).value, false)
                                    == Ok(Walked(copies[0], left, None)))
            && forall k :: 1 <= k < |copies| ==> Load(c, self, b.replacee, b.items[k]) == Ok(copies[k])
  {
    if |b.items| > 0 {
      LoadFromFacts(c, self, b.replacee, b.items, 1);
    }
  }

  /** `parent.remove(object)` takes out the object itself unless an earlier
      element equals it; then that element goes and the object, without its
      key, stays one place further up. The copies go at the end. */
  lemma ExpandedShape(es: seq<Json>, i: nat, popped: Json, e: Expansion)
    requires i < |es|
    ensures var k := FirstSame(es[i := e.original], e.original, i);
            && (k == i ==> Expanded(es, i, popped, e) == es[..i] + es[i + 1..] + e.copies)
            && (k < i ==> Same(es[k], e.original)
                          && Expanded(es, i, popped, e) == es[..k] + es[k + 1..i] + [popped] + es[i + 1..] + e.copies)
  {
    var es1 := es[i := e.original];
    var k := FirstSame(es1, e.original, i);
    if k < i {
      var es2 := es1[..k] + es1[k + 1..];
      assert es2[i - 1 := popped] == es[..k] + es[k + 1..i] + [popped] + es[i + 1..];
    } else {
      assert es1[..i] + es1[i + 1..] == es[..i] + es[i + 1..];
    }
  }

  /** A `for` object inside an array: once the fields before the directive
      are walked (`fs'`), the object is removed, or the first element before
      it equal to it is removed instead and the object stays without its key;
      the copies are made from the object without its `tmcf` key and go at
      the end; the walk goes on from the index after the object's, so the
      element that moved into the object's place is passed over. A file whose
      tag cannot be made raises `TypeError`, and a clause `parse_for_loop`
      rejects ends the walk with its error. */
  lemma ForInArray(c: Codec, vars: Option<Fields>, tagged: bool, fuel: nat, es: seq<Json>, i: nat, fs: seq<(string, Json)>, j: nat, s: string)
    requires fuel >= 1 && i < |es| && es[i] == JObj(fs)
    requires j < |fs| && NoDirectiveIn(fs, 0, j) && fs[j] == ("tmcf", JStr(s)) && Split(s, ' ')[0] == "for"
    ensures var r := WalkList(c, vars, tagged, fuel, es, i);
            match WalkUpTo(c, vars, tagged, fuel - 1, fs, 0, j)
            case Err(e) => r == Err(e)
            case Ok((fs', f)) =>
              if !tagged then r == Err(Crash(TypeError))
              else match ParseForLoop(vars, Split(s, ' '), InFile)
                case Err(e) => r == Err(e)
                case Ok(b) =>
                  var popped := JObj(Pop(fs', "tmcf"));
                  match Copies(c, vars, tagged, f, c.dumps(popped), b)
                  case Err(e) => r == Err(e)
                  case Ok((copies, left)) =>
                    var k := FirstSame(es[i := JObj(fs')], JObj(fs'), i);
                    && (k == i ==> r == WalkList(c, vars, tagged, left, es[..i] + es[i + 1..] + copies, i + 1))
                    && (k < i ==> Same(es[k], JObj(fs'))
                                  && r == WalkList(c, vars, tagged, left, es[..k] + es[k + 1..i] + [popped] + es[i + 1..] + copies, i + 1))
  {
    WalkThrough(c, vars, tagged, fuel - 1, fs, 0, j, true);
    match WalkUpTo(c, vars, tagged, fuel - 1, fs, 0, j)
    case Err(e) =>
    case Ok((fs', f)) =>
      assert fs'[j] == fs[j];
      if tagged {
        match ParseForLoop(vars, Split(s, ' '), InFile)
        case Err(e) =>
        case Ok(b) =>
          var popped := JObj(Pop(fs', "tmcf"));
          match Copies(c, vars, tagged, f, c.dumps(popped), b)
          case Err(e) =>
          case Ok((copies, left)) =>
            var e := Expansion(JObj(fs'), copies);
            assert WalkNode(c, vars, tagged, fuel, es[i], true) == Ok(Walked(popped, left, Some(e)));
            ExpandedShape(es, i, popped, e);
      }
  }

  /** On a POSIX path, which splitting on backslashes leaves whole, the tag
      of the file cannot be made, and a `for` object inside an array raises
      `TypeError` before its clause is read. */
  lemma PosixPathFor(c: Codec, vars: Option<Fields>, path: string, fuel: nat, s: string)
    requires '\\' !in path && fuel >= 2 && Split(s, ' ')[0] == "for"
    ensures JsonFile(c, vars, path, fuel, JArr([JObj([("tmcf", JStr(s))])])) == Err(Crash(TypeError))
  {
    Logging.GenericRefWithoutBackslash(path);
    var fs := [("tmcf", JStr(s))];
    assert Directive(c, vars, false, fuel - 2, fs, JStr(s), true) == Err(Crash(TypeError));
    assert WalkFields(c, vars, false, fuel - 2, fs, 0, true) == Err(Crash(TypeError));
    assert WalkNode(c, vars, false, fuel - 1, JObj(fs), true) == Err(Crash(TypeError));
    assert WalkList(c, vars, false, fuel - 1, [JObj(fs)], 0) == Err(Crash(TypeError));
  }

  /** With a codec that parses back what it writes, a loop variable that the
      serialised object does not mention yields copies equal to the object
      without its `tmcf` key (the first one after its walk). */
  lemma UnmentionedVariable(c: Codec, vars: Option<Fields>, tagged: bool, fuel: nat, fs: seq<(string, Json)>, b: Binding)
    requires forall v :: c.loads(c.dumps(v)) == Some(v)
    requires b.replacee != [] && !Occurs(c.dumps(JObj(Pop(fs, "tmcf"))), b.replacee)
    requires Copies(c, vars, tagged, fuel, c.dumps(JObj(Pop(fs, "tmcf"))), b).Ok?
    ensures var copies := Copies(c, vars, tagged, fuel, c.dumps(JObj(Pop(fs, "tmcf"))), b).value.0;
            forall k :: 1 <= k < |copies| ==> copies[k] == JObj(Pop(fs, "tmcf")) && !exists m :: 0 <= m < |copies[k].fields| && copies[k].fields[m].0 == "tmcf"
  {
    var popped := JObj(Pop(fs, "tmcf"));
    var self := c.dumps(popped);
    CopiesFacts(c, vars, tagged, fuel, self, b);
    forall k | 1 <= k < |b.items|
      ensures Load(c, self, b.replacee, b.items[k]) == Ok(popped)
    {
      ReplaceAbsent(self, b.replacee, Str(b.items[k]));
    }
  }
}
