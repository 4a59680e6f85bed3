/**
 * The configuration document (the parsed `tmcf.toml`) and `validate_config`
 * (tmcf/main.py:37-60): the required output keys, the reserved variable name
 * `range`, the ban on table-valued variables, and the normalisation of
 * `global_replace` into one table per host ('function' and 'json').
 */
module Config {
  import opened Wrappers
  import opened Errors
  import opened Text

  /** A TOML scalar. `Other` stands for a float or a date, carried as the text
      Python's `str()` gives it; booleans are kept apart because Python treats
      them as integers. */
  datatype Scalar = Int(n: int) | Bool(b: bool) | String(s: string) | Other(shown: string)

  /** A TOML value. Tables keep their keys in document order, as Python dicts do. */
  datatype Value = Atom(scalar: Scalar) | List(elems: seq<Scalar>) | Table(fields: seq<(string, Value)>)

  type Fields = seq<(string, Value)>

  /** The keys of a table, in order. */
  function Keys(fs: Fields): seq<string> {
    if fs == [] then [] else [fs[0].0] + Keys(fs[1..])
  }

  lemma KeysCons(e: (string, Value), rest: Fields)
    ensures Keys([e] + rest) == [e.0] + Keys(rest)
  {
    assert ([e] + rest)[1..] == rest;
  }

  /** `key in d` */
  predicate Has(fs: Fields, key: string) {
    key in Keys(fs)
  }

  /** A TOML table never repeats a key. */
  predicate UniqueKeys(fs: Fields) {
    fs == [] || (fs[0].0 !in Keys(fs[1..]) && UniqueKeys(fs[1..]))
  }

  /** `d.get(key)` */
  function Get(fs: Fields, key: string): (r: Option<Value>)
    ensures r.Some? <==> Has(fs, key)
  {
    if fs == [] then None
    else if fs[0].0 == key then Some(fs[0].1)
    else Get(fs[1..], key)
  }

  /** `d[key] = v`: an existing key keeps its place, a new key goes last. */
  function Put(fs: Fields, key: string, v: Value): Fields {
    if fs == [] then [(key, v)]
    else if fs[0].0 == key then [(key, v)] + fs[1..]
    else [fs[0]] + Put(fs[1..], key, v)
  }

  lemma {:induction false} PutKeys(fs: Fields, key: string, v: Value)
    ensures forall k :: Has(Put(fs, key, v), k) <==> Has(fs, k) || k == key
  {
    if fs == [] {
      KeysCons((key, v), []);
      assert [(key, v)] + fs == Put(fs, key, v);
      assert Keys(Put(fs, key, v)) == [key];
    } else if fs[0].0 == key {
      KeysCons((key, v), fs[1..]);
      KeysCons(fs[0], fs[1..]);
      assert [fs[0]] + fs[1..] == fs;
      assert Keys(Put(fs, key, v)) == Keys(fs);
    } else {
      PutKeys(fs[1..], key, v);
      var p := Put(fs, key, v);
      assert p == [fs[0]] + Put(fs[1..], key, v);
      KeysCons(fs[0], Put(fs[1..], key, v));
      assert Keys(fs) == [fs[0].0] + Keys(fs[1..]);
      forall k ensures Has(p, k) <==> Has(fs, k) || k == key {
        assert Has(p, k) <==> k == fs[0].0 || Has(Put(fs[1..], key, v), k);
        assert Has(fs, k) <==> k == fs[0].0 || Has(fs[1..], k);
      }
    }
  }

  lemma {:induction false} PutFacts(fs: Fields, key: string, v: Value)
    ensures Get(Put(fs, key, v), key) == Some(v)
    ensures forall k :: k != key ==> Get(Put(fs, key, v), k) == Get(fs, k)
    ensures forall k :: Has(Put(fs, key, v), k) <==> Has(fs, k) || k == key
    ensures UniqueKeys(fs) ==> UniqueKeys(Put(fs, key, v))
  {
    PutKeys(fs, key, v);
    if fs == [] {
    } else if fs[0].0 == key {
      KeysCons((key, v), fs[1..]);
    } else {
      PutFacts(fs[1..], key, v);
      var p := Put(fs, key, v);
      assert p == [fs[0]] + Put(fs[1..], key, v);
      assert p[1..] == Put(fs[1..], key, v);
      KeysCons(fs[0], Put(fs[1..], key, v));
      if UniqueKeys(fs) {
        assert !Has(fs[1..], fs[0].0);
        assert !Has(Put(fs[1..], key, v), fs[0].0);
      }
    }
  }

  /** Successive `d[key] = v` for each entry of `entries`, in order. */
  function PutAll(fs: Fields, entries: Fields): Fields
    decreases |entries|
  {
    if entries == [] then fs else PutAll(Put(fs, entries[0].0, entries[0].1), entries[1..])
  }

  lemma {:induction false} PutAllFacts(fs: Fields, entries: Fields)
    requires UniqueKeys(entries)
    ensures forall k :: Get(PutAll(fs, entries), k) == if Has(entries, k) then Get(entries, k) else Get(fs, k)
    ensures forall k :: Has(PutAll(fs, entries), k) <==> Has(fs, k) || Has(entries, k)
    ensures UniqueKeys(fs) ==> UniqueKeys(PutAll(fs, entries))
    decreases |entries|
  {
    if entries != [] {
      PutFacts(fs, entries[0].0, entries[0].1);
      PutAllFacts(Put(fs, entries[0].0, entries[0].1), entries[1..]);
    }
  }

  /** `{**base, **top}` */
  function Merge(base: Fields, top: Fields): Fields {
    PutAll(PutAll([], base), top)
  }

  /** In `{**base, **top}` the keys are those of both tables, each once, and
      on a clash the entry of `top` wins. */
  lemma MergeFacts(base: Fields, top: Fields)
    requires UniqueKeys(base) && UniqueKeys(top)
    ensures UniqueKeys(Merge(base, top))
    ensures forall k :: Has(Merge(base, top), k) <==> Has(base, k) || Has(top, k)
    ensures forall k :: Get(Merge(base, top), k) == if Has(top, k) then Get(top, k) else Get(base, k)
  {
    PutAllFacts([], base);
    PutAllFacts(PutAll([], base), top);
  }

  /** `d.pop(key, None)` (the table without that key) */
  function Without(fs: Fields, key: string): Fields {
    if fs == [] then []
    else if fs[0].0 == key then Without(fs[1..], key)
    else [fs[0]] + Without(fs[1..], key)
  }

  lemma {:induction false} WithoutFacts(fs: Fields, key: string)
    ensures forall k :: Has(Without(fs, key), k) <==> Has(fs, k) && k != key
    ensures forall k :: k != key ==> Get(Without(fs, key), k) == Get(fs, k)
    ensures UniqueKeys(fs) ==> UniqueKeys(Without(fs, key))
  {
    if fs != [] {
      WithoutFacts(fs[1..], key);
      if fs[0].0 != key {
        var rest := Without(fs[1..], key);
        var r := [fs[0]] + rest;
        assert Without(fs, key) == r;
        assert r[1..] == rest;
        KeysCons(fs[0], rest);
        assert Keys(fs) == [fs[0].0] + Keys(fs[1..]);
        forall k ensures Has(r, k) <==> Has(fs, k) && k != key {
          assert Has(r, k) <==> k == fs[0].0 || Has(rest, k);
          assert Has(fs, k) <==> k == fs[0].0 || Has(fs[1..], k);
        }
        if UniqueKeys(fs) {
          assert !Has(fs[1..], fs[0].0);
          assert !Has(rest, fs[0].0);
        }
      }
    }
  }

  /** The position of the first variable, in document order, whose value is a table. */
  function FirstTableVariable(vars: Fields): (r: Option<nat>)
    ensures r.None? <==> forall i :: 0 <= i < |vars| ==> !vars[i].1.Table?
    ensures r.Some? ==> r.value < |vars| && vars[r.value].1.Table?
                        && forall j :: 0 <= j < r.value ==> !vars[j].1.Table?
  {
    if vars == [] then None
    else if vars[0].1.Table? then Some(0)
    else
      match FirstTableVariable(vars[1..])
      case None => None
      case Some(i) => Some(i + 1)
  }

  /** The checks on `variables` (main.py:44-50). Python's `in` tests keys of a
      table, elements of a list and substrings of a string, and raises on
      anything else; `.items()` exists only on a table. */
  function CheckVariables(v: Value): Outcome<()> {
    match v
    case Table(fs) =>
      if Has(fs, "range") then Err(Fatal(ReservedRange, Unplaced))
      else if FirstTableVariable(fs).Some? then Err(Fatal(TableVariable(fs[FirstTableVariable(fs).value].0), Unplaced))
      else Ok(())
    case List(elems) =>
      if String("range") in elems then Err(Fatal(ReservedRange, Unplaced)) else Err(Crash(AttributeError))
    case Atom(String(s)) =>
      if Occurs(s, "range") then Err(Fatal(ReservedRange, Unplaced)) else Err(Crash(AttributeError))
    case Atom(_) => Err(Crash(TypeError))
  }

  /** `t.get(name, {})` spread with `**`: absent is empty, a non-table raises. */
  function HostTable(fs: Fields, name: string): Outcome<Fields> {
    match Get(fs, name)
    case None => Ok([])
    case Some(Table(t)) => Ok(t)
    case Some(_) => Err(Crash(TypeError))
  }

  /** The normalisation of `global_replace` (main.py:52-59). */
  function NormaliseReplace(v: Value): Outcome<Value> {
    match v
    case Table(fs) =>
      var shared := Without(Without(fs, "function"), "json");
      var forFunctions :- HostTable(fs, "function");
      var forJson :- HostTable(fs, "json");
      Ok(Table([("function", Table(Merge(forFunctions, shared))), ("json", Table(Merge(forJson, shared)))]))
    case List(_) => Err(Crash(TypeError))
    case Atom(_) => Err(Crash(AttributeError))
  }

  /** What `validate_config` returns for a parsed document, or how it stops. */
  function Validated(doc: Fields): Outcome<Fields> {
    if !Has(doc, "data_out") then Err(Fatal(MissingConfigKey("data_out"), Unplaced))
    else if !Has(doc, "assets_out") then Err(Fatal(MissingConfigKey("assets_out"), Unplaced))
    else
      var _ :- if Has(doc, "variables") then CheckVariables(Get(doc, "variables").value) else Ok(());
      if Has(doc, "global_replace") then
        var replace :- NormaliseReplace(Get(doc, "global_replace").value);
        Ok(Put(doc, "global_replace", replace))
      else Ok(doc)
  }

  /** `validate_config` on an already parsed document, with the loop over the
      variables that looks for a table-valued one. */
  method ValidateConfig(doc: Fields) returns (r: Outcome<Fields>)
    ensures r == Validated(doc)
  {
    if !Has(doc, "data_out") {
      return Err(Fatal(MissingConfigKey("data_out"), Unplaced));
    }
    if !Has(doc, "assets_out") {
      return Err(Fatal(MissingConfigKey("assets_out"), Unplaced));
    }
    var config := doc;
    var variables := Get(config, "variables");
    if variables.Some? {
      match variables.value {
        case Table(fs) =>
          if Has(fs, "range") {
            return Err(Fatal(ReservedRange, Unplaced));
          }
          var i := 0;
          while i < |fs|
            invariant 0 <= i <= |fs|
            invariant forall j :: 0 <= j < i ==> !fs[j].1.Table?
          {
            if fs[i].1.Table? {
              assert FirstTableVariable(fs) == Some(i);
              return Err(Fatal(TableVariable(fs[i].0), Unplaced));
            }
            i := i + 1;
          }
        case _ =>
          var checked := CheckVariables(variables.value);
          return Err(checked.error);
      }
    }
    var replace := Get(config, "global_replace");
    if replace.Some? {
      var normalised := NormaliseReplace(replace.value);
      if normalised.Err? {
        return Err(normalised.error);
      }
      config := Put(config, "global_replace", normalised.value);
    }
    return Ok(config);
  }

  /** Validation stops on a missing output directory, on a variable named
      `range`, and on the first variable whose value is a table. */
  lemma ConfigErrors(doc: Fields)
    ensures !Has(doc, "data_out") ==> Validated(doc) == Err(Fatal(MissingConfigKey("data_out"), Unplaced))
    ensures Has(doc, "data_out") && !Has(doc, "assets_out") ==>
              Validated(doc) == Err(Fatal(MissingConfigKey("assets_out"), Unplaced))
    ensures Has(doc, "data_out") && Has(doc, "assets_out") && Get(doc, "variables").Some? && Get(doc, "variables").value.Table? ==>
              var fs := Get(doc, "variables").value.fields;
              && (Has(fs, "range") ==> Validated(doc) == Err(Fatal(ReservedRange, Unplaced)))
              && (!Has(fs, "range") && (exists i :: 0 <= i < |fs| && fs[i].1.Table?) ==>
                    FirstTableVariable(fs).Some?
                    && Validated(doc) == Err(Fatal(TableVariable(fs[FirstTableVariable(fs).value].0), Unplaced)))
  {
  }

  /** After validation the variables, if any, are a table without the key
      `range` and without table values. */
  lemma ValidatedVariables(doc: Fields)
    requires Validated(doc).Ok?
    ensures Has(doc, "data_out") && Has(doc, "assets_out")
    ensures Get(Validated(doc).value, "variables") == Get(doc, "variables")
    ensures Has(doc, "variables") ==>
      && Get(doc, "variables").value.Table?
      && !Has(Get(doc, "variables").value.fields, "range")
      && forall i :: 0 <= i < |Get(doc, "variables").value.fields| ==>
                     !Get(doc, "variables").value.fields[i].1.Table?
  {
    if Has(doc, "global_replace") {
      PutFacts(doc, "global_replace", NormaliseReplace(Get(doc, "global_replace").value).value);
    }
  }

  /** A document without `global_replace` comes back as it was. */
  lemma ValidatedWithoutReplace(doc: Fields)
    requires Validated(doc).Ok? && !Has(doc, "global_replace")
    ensures Validated(doc) == Ok(doc)
  {
  }

  /** The table `config["global_replace"][host]`, when there is one. */
  function ReplaceTable(config: Fields, host: string): Option<Fields> {
    match Get(config, "global_replace")
    case Some(Table(g)) =>
      (match Get(g, host)
       case Some(Table(t)) => Some(t)
       case _ => None)
    case _ => None
  }

  /** `key` in the normalised table for `host`: present when the host table or
      the top level of `global_replace` has it, with the top-level value on a
      clash. */
  predicate OverlaysShared(g: Fields, host: string, t: Fields, key: string)
    requires HostTable(g, host).Ok?
  {
    var shared := key != "function" && key != "json" && Has(g, key);
    && (Has(t, key) <==> shared || Has(HostTable(g, host).value, key))
    && Get(t, key) == if shared then Get(g, key) else Get(HostTable(g, host).value, key)
  }

  /** After validation `global_replace` holds exactly the tables 'function'
      and 'json', in that order, each the host table overlaid with the
      top-level entries. */
  lemma ValidatedReplace(doc: Fields, key: string)
    requires Validated(doc).Ok? && Has(doc, "global_replace")
    requires Get(doc, "global_replace").value.Table?
    requires var g := Get(doc, "global_replace").value.fields;
             && UniqueKeys(g)
             && HostTable(g, "function").Ok? && UniqueKeys(HostTable(g, "function").value)
             && HostTable(g, "json").Ok? && UniqueKeys(HostTable(g, "json").value)
    ensures var out := Get(Validated(doc).value, "global_replace");
            out.Some? && out.value.Table? && Keys(out.value.fields) == ["function", "json"]
    ensures var g := Get(doc, "global_replace").value.fields;
            var t := ReplaceTable(Validated(doc).value, "function");
            t.Some? && OverlaysShared(g, "function", t.value, key)
    ensures var g := Get(doc, "global_replace").value.fields;
            var t := ReplaceTable(Validated(doc).value, "json");
            t.Some? && OverlaysShared(g, "json", t.value, key)
  {
    var g := Get(doc, "global_replace").value.fields;
    var norm := NormaliseReplace(Table(g)).value;
    NormalisedOverlay(g, key);
    assert Validated(doc) == Ok(Put(doc, "global_replace", norm));
    PutFacts(doc, "global_replace", norm);
    assert Get(Validated(doc).value, "global_replace") == Some(norm);
  }

  /** The normalised `global_replace` on its own: the tables `function` and
      `json`, each overlaid with the top-level entries. */
  lemma NormalisedOverlay(g: Fields, key: string)
    requires && UniqueKeys(g)
             && HostTable(g, "function").Ok? && UniqueKeys(HostTable(g, "function").value)
             && HostTable(g, "json").Ok? && UniqueKeys(HostTable(g, "json").value)
    ensures var r := NormaliseReplace(Table(g));
            && r.Ok? && r.value.Table? && |r.value.fields| == 2
            && r.value.fields[0].0 == "function" && r.value.fields[0].1.Table?
            && r.value.fields[1].0 == "json" && r.value.fields[1].1.Table?
            && OverlaysShared(g, "function", r.value.fields[0].1.fields, key)
            && OverlaysShared(g, "json", r.value.fields[1].1.fields, key)
  {
    var shared := Without(Without(g, "function"), "json");
    WithoutFacts(g, "function");
    WithoutFacts(Without(g, "function"), "json");
    MergeFacts(HostTable(g, "function").value, shared);
    MergeFacts(HostTable(g, "json").value, shared);
  }
}
