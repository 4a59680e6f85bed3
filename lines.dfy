/**
 * Expansion of `.mcfunction` templates (tmcf/command/build.py:33-83 and
 * 120-136). A template is read line by line through a shared `Consumable`
 * cursor: a line starting with `#@` is a directive (`for` repeats the block up
 * to the next `#@` line once per item, `generate` writes one sibling file per
 * item), every other line is copied. The file's text, if it is not blank, then
 * goes through the configured global replacements.
 *
 * Each routine is given twice: a function over the list of lines and a
 * position, which is the specification, and a method over the cursor, which
 * does what the program does and is proved to compute that function.
 * Files are not written: each routine returns the files it would write.
 */
module Lines {
  import opened Wrappers
  import opened Errors
  import opened Text
  import opened Config
  import opened Loops
  import opened Utils

  /** Where a file is written: the template's own output path, or
      `../<name>` beside it (the files a `generate` directive creates). */
  datatype Target = Template | Sibling(name: string)

  datatype Written = Written(target: Target, contents: string)

  /** What `handle_line` returns, the files written on the way, and where the
      cursor stops. */
  datatype Expansion = Expansion(text: string, written: seq<Written>, next: nat)

  /** The expanded lines of a loop block up to its `#@` terminator. */
  datatype Block = Block(lines: seq<string>, written: seq<Written>, next: nat)

  /** What `function_for_loop` returns: one copy of the body per item. */
  datatype Loop = Loop(chunks: seq<string>, replacee: string, items: seq<Scalar>, written: seq<Written>, next: nat)

  datatype Generated = Generated(written: seq<Written>, next: nat)

  /** Python's slice `s[k:]`. */
  function Drop<T>(s: seq<T>, k: nat): (r: seq<T>)
    ensures k <= |s| ==> r == s[k..]
    ensures k > |s| ==> r == []
  {
    if k <= |s| then s[k..] else []
  }

  /** The terminator test of a loop block: the line is `#@` once trimmed. */
  predicate IsTerminator(line: string) {
    Strip(line) == "#@"
  }

  predicate AllCommented(block: seq<string>) {
    forall i :: 0 <= i < |block| ==> StartsWith(block[i], "#")
  }

  function Uncomment(block: seq<string>): (r: seq<string>)
    requires AllCommented(block)
    ensures |r| == |block| && forall i :: 0 <= i < |block| ==> [block[i][0]] + r[i] == block[i]
  {
    seq(|block|, i requires 0 <= i < |block| => block[i][1..])
  }

  /** The body of a loop: when every expanded line starts with `#` (a block
      written as comments so the template stays valid), that first character
      is dropped from each. */
  function Body(block: seq<string>): string {
    if AllCommented(block) then Concat(Uncomment(block)) else Concat(block)
  }

  /** `[output.replace(replacee, str(item)) for item in items]` */
  function Substitute(body: string, replacee: string, items: seq<Scalar>): (chunks: seq<string>)
    ensures |chunks| == |items|
    ensures forall i :: 0 <= i < |items| ==> chunks[i] == Replace(body, replacee, Str(items[i]))
  {
    seq(|items|, i requires 0 <= i < |items| => Replace(body, replacee, Str(items[i])))
  }

  /** `handle_line` on the line at `pos`. Fatal messages point at the cursor
      index after the directive line, which is that line's 1-based number. */
  function ExpandAt(vars: Option<Fields>, lines: seq<string>, pos: nat): (r: Outcome<Expansion>)
    requires pos <= |lines|
    ensures r.Ok? ==> pos < r.value.next <= |lines|
    decreases |lines| - pos, 0
  {
    if pos == |lines| then Err(Crash(IndexError))
    else if !StartsWith(lines[pos], "#@") then Ok(Expansion(lines[pos], [], pos + 1))
    else
      var tokens := Split(Strip(lines[pos]), ' ');
      if |tokens| <= 1 then Err(Fatal(MissingToken, AtLine(pos + 1)))
      else if tokens[1] == "for" then
        var loop :- ForLoopAt(vars, lines, pos + 1, tokens);
        Ok(Expansion(Concat(loop.chunks), loop.written, loop.next))
      else if tokens[1] == "generate" then
        var g :- GenerateAt(vars, lines, pos + 1, tokens);
        Ok(Expansion("", g.written, g.next))
      else Err(Fatal(UnexpectedToken(tokens[1]), AtLine(pos + 1)))
  }

  /** The loop of `function_for_loop` that collects the expanded block. */
  function CaptureFrom(vars: Option<Fields>, lines: seq<string>, pos: nat): (r: Outcome<Block>)
    requires pos <= |lines|
    ensures r.Ok? ==> pos < r.value.next <= |lines|
    decreases |lines| - pos, 1
  {
    if pos == |lines| then Err(Crash(IndexError))
    else if IsTerminator(lines[pos]) then Ok(Block([], [], pos + 1))
    else
      var e :- ExpandAt(vars, lines, pos);
      var rest :- CaptureFrom(vars, lines, e.next);
      Ok(Block([e.text] + rest.lines, e.written + rest.written, rest.next))
  }

  /** `function_for_loop(tokens, lines, path)` with the cursor at `pos`: the
      loop clause is `tokens[1:]`, and is parsed before the block is read. */
  function ForLoopAt(vars: Option<Fields>, lines: seq<string>, pos: nat, tokens: seq<string>): (r: Outcome<Loop>)
    requires pos <= |lines|
    ensures r.Ok? ==> && pos < r.value.next <= |lines|
                      && |r.value.chunks| == |r.value.items|
                      && |tokens| >= 5 && r.value.replacee == tokens[2]
    decreases |lines| - pos, 2
  {
    var b :- ParseForLoop(vars, Drop(tokens, 1), AtLine(pos));
    var block :- CaptureFrom(vars, lines, pos);
    Ok(Loop(Substitute(Body(block.lines), b.replacee, b.items), b.replacee, b.items, block.written, block.next))
  }

  /** `file_generations(tokens, lines, path)` with the cursor at `pos`: the
      loop clause follows the file name `tokens[2]`, and copy `i` of the body
      is written to the file name with the replacee replaced by item `i`. */
  function GenerateAt(vars: Option<Fields>, lines: seq<string>, pos: nat, tokens: seq<string>): (r: Outcome<Generated>)
    requires pos <= |lines|
    ensures r.Ok? ==> pos < r.value.next <= |lines|
    decreases |lines| - pos, 3
  {
    var loop :- ForLoopAt(vars, lines, pos, Drop(tokens, 2));
    var files :- NameFiles(tokens[2], loop, 0);
    Ok(Generated(loop.written + files, loop.next))
  }

  /** The files of a `generate` from item `i` on; an item that leaves the file
      name unchanged is fatal, pointing at the line after the block. */
  function NameFiles(name: string, loop: Loop, i: nat): Outcome<seq<Written>>
    requires |loop.chunks| == |loop.items| && i <= |loop.items|
    decreases |loop.items| - i
  {
    if i == |loop.items| then Ok([])
    else
      var filename := Replace(name, loop.replacee, Str(loop.items[i]));
      if filename == name then Err(Fatal(FileNameUnchanged, AtLine(loop.next)))
      else
        var rest :- NameFiles(name, loop, i + 1);
        Ok([Written(Sibling(filename + ".mcfunction"), loop.chunks[i])] + rest)
  }

  /** The text and files of a template, read from `pos` to the end. */
  datatype Rendered = Rendered(text: string, written: seq<Written>)

  function ExpandFrom(vars: Option<Fields>, lines: seq<string>, pos: nat): Outcome<Rendered>
    requires pos <= |lines|
    decreases |lines| - pos
  {
    if pos == |lines| then Ok(Rendered("", []))
    else
      var e :- ExpandAt(vars, lines, pos);
      var rest :- ExpandFrom(vars, lines, e.next);
      Ok(Rendered(e.text + rest.text, e.written + rest.written))
  }

  /** `config["global_replace"]["function"]`, which raises when the
      configuration has no `global_replace`. */
  function FunctionReplacements(config: Fields): Outcome<Fields> {
    match Get(config, "global_replace")
    case None => Err(Crash(KeyError("global_replace")))
    case Some(Table(g)) =>
      (match Get(g, "function")
       case None => Err(Crash(KeyError("function")))
       case Some(Table(t)) => Ok(t)
       case Some(_) => Err(Crash(AttributeError)))
    case Some(_) => Err(Crash(TypeError))
  }

  /** Every value of a replacement table is a string. */
  predicate AllStrings(table: Fields) {
    forall k :: 0 <= k < |table| ==> table[k].1.Atom? && table[k].1.scalar.String?
  }

  /** `for k, v in table.items(): s = s.replace(k, v)`, where a value that is
      not a string raises: the replacements succeed exactly when every value
      is a string. */
  function ReplaceAll(s: string, table: Fields): (r: Outcome<string>)
    ensures r.Ok? <==> AllStrings(table)
    ensures r.Err? ==> r.error == Crash(TypeError)
    decreases |table|
  {
    if table == [] then Ok(s)
    else match table[0].1
      case Atom(String(rep)) => ReplaceAll(Replace(s, table[0].0, rep), table[1..])
      case _ => Err(Crash(TypeError))
  }

  /** What validation guarantees of `variables`: absent, or a table. */
  predicate HasVariableTable(config: Fields) {
    Get(config, "variables").None? || Get(config, "variables").value.Table?
  }

  function Variables(config: Fields): Option<Fields>
    requires HasVariableTable(config)
  {
    match Get(config, "variables")
    case None => None
    case Some(v) => Some(v.fields)
  }

  /** One iteration of the per-file loop of `build_pack`: expand the template,
      and write it, globally replaced, unless it is blank. */
  function FunctionFile(config: Fields, template: seq<string>): (r: Outcome<seq<Written>>)
    requires HasVariableTable(config)
  {
    var out :- ExpandFrom(Variables(config), template, 0);
    if IsBlank(out.text) then Ok(out.written)
    else
      var table :- FunctionReplacements(config);
      var text :- ReplaceAll(out.text, table);
      Ok(out.written + [Written(Template, text)])
  }

  // ---------------------------------------------------------------------
  // The program's routines over the shared cursor.

  method HandleLine(vars: Option<Fields>, lines: Consumable) returns (r: Outcome<Expansion>)
    requires lines.Valid()
    modifies lines
    ensures lines.Valid()
    ensures r == ExpandAt(vars, lines.strings, old(lines.index))
    ensures r.Ok? ==> lines.index == r.value.next
    decreases |lines.strings| - lines.index, 0
  {
    var line := lines.Consume();
    if line.None? {
      return Err(Crash(IndexError));
    }
    if !StartsWith(line.value, "#@") {
      return Ok(Expansion(line.value, [], lines.index));
    }
    var tokens := Split(Strip(line.value), ' ');
    if |tokens| > 1 {
      if tokens[1] == "for" {
        var loop := FunctionForLoop(vars, lines, tokens);
        if loop.Err? {
          return Err(loop.error);
        }
        return Ok(Expansion(Concat(loop.value.chunks), loop.value.written, lines.index));
      } else if tokens[1] == "generate" {
        var g := FileGenerations(vars, lines, tokens);
        if g.Err? {
          return Err(g.error);
        }
        return Ok(Expansion("", g.value.written, lines.index));
      } else {
        return Err(Fatal(UnexpectedToken(tokens[1]), AtLine(lines.index)));
      }
    }
    return Err(Fatal(MissingToken, AtLine(lines.index)));
  }

  /** `prefix` and `written` put in front of the block a capture goes on to read. */
  function Prepend(prefix: seq<string>, written: seq<Written>, r: Outcome<Block>): Outcome<Block> {
    match r
    case Ok(b) => Ok(Block(prefix + b.lines, written + b.written, b.next))
    case Err(e) => Err(e)
  }

  lemma PrependNothing(r: Outcome<Block>)
    ensures Prepend([], [], r) == r
  {
    if r.Ok? {
      assert [] + r.value.lines == r.value.lines;
      assert [] + r.value.written == r.value.written;
    }
  }

  /** One expanded line of a block, taken off the front of the capture. */
  lemma CaptureStep(vars: Option<Fields>, lines: seq<string>, pos: nat, e: Expansion)
    requires pos < |lines| && !IsTerminator(lines[pos]) && ExpandAt(vars, lines, pos) == Ok(e)
    ensures e.next <= |lines|
    ensures CaptureFrom(vars, lines, pos) == Prepend([e.text], e.written, CaptureFrom(vars, lines, e.next))
  {
  }

  lemma PrependTwice(p: seq<string>, w: seq<Written>, q: seq<string>, v: seq<Written>, r: Outcome<Block>)
    ensures Prepend(p, w, Prepend(q, v, r)) == Prepend(p + q, w + v, r)
  {
    if r.Ok? {
      assert p + (q + r.value.lines) == (p + q) + r.value.lines;
      assert w + (v + r.value.written) == (w + v) + r.value.written;
    }
  }

  method FunctionForLoop(vars: Option<Fields>, lines: Consumable, tokens: seq<string>) returns (r: Outcome<Loop>)
    requires lines.Valid()
    modifies lines
    ensures lines.Valid()
    ensures r == ForLoopAt(vars, lines.strings, old(lines.index), tokens)
    ensures r.Ok? ==> lines.index == r.value.next
    decreases |lines.strings| - lines.index, 2
  {
    var b := ParseForLoop(vars, Drop(tokens, 1), AtLine(lines.index));
    if b.Err? {
      return Err(b.error);
    }
    var block := CaptureBlock(vars, lines);
    if block.Err? {
      return Err(block.error);
    }
    var chunks := Substitute(Body(block.value.lines), b.value.replacee, b.value.items);
    return Ok(Loop(chunks, b.value.replacee, b.value.items, block.value.written, lines.index));
  }

  /** The `while True` loop of `function_for_loop`: expand lines into the
      block until the `#@` terminator, which is consumed. */
  method CaptureBlock(vars: Option<Fields>, lines: Consumable) returns (r: Outcome<Block>)
    requires lines.Valid()
    modifies lines
    ensures lines.Valid()
    ensures r == CaptureFrom(vars, lines.strings, old(lines.index))
    ensures r.Ok? ==> lines.index == r.value.next
    decreases |lines.strings| - lines.index, 1
  {
    var start := lines.index;
    var block: seq<string> := [];
    var written: seq<Written> := [];
    PrependNothing(CaptureFrom(vars, lines.strings, lines.index));
    while true
      invariant lines.Valid() && start <= lines.index
      invariant CaptureFrom(vars, lines.strings, start)
                == Prepend(block, written, CaptureFrom(vars, lines.strings, lines.index))
      decreases |lines.strings| - lines.index
    {
      var next := lines.Preview();
      if next.None? {
        return Err(Crash(IndexError));
      }
      if IsTerminator(next.value) {
        var _ := lines.Consume();
        break;
      }
      var q := lines.index;
      var e := HandleLine(vars, lines);
      if e.Err? {
        return Err(e.error);
      }
      CaptureStep(vars, lines.strings, q, e.value);
      PrependTwice(block, written, [e.value.text], e.value.written, CaptureFrom(vars, lines.strings, lines.index));
      block := block + [e.value.text];
      written := written + e.value.written;
    }
    assert block + [] == block && written + [] == written;
    return Ok(Block(block, written, lines.index));
  }

  method FileGenerations(vars: Option<Fields>, lines: Consumable, tokens: seq<string>) returns (r: Outcome<Generated>)
    requires lines.Valid()
    modifies lines
    ensures lines.Valid()
    ensures r == GenerateAt(vars, lines.strings, old(lines.index), tokens)
    ensures r.Ok? ==> lines.index == r.value.next
    decreases |lines.strings| - lines.index, 3
  {
    var loop := FunctionForLoop(vars, lines, Drop(tokens, 2));
    if loop.Err? {
      return Err(loop.error);
    }
    var files := NameGenerated(tokens[2], loop.value);
    if files.Err? {
      return Err(files.error);
    }
    return Ok(Generated(loop.value.written + files.value, lines.index));
  }

  /** `files` put in front of the files a `generate` goes on to name. */
  function PrependFiles(files: seq<Written>, r: Outcome<seq<Written>>): Outcome<seq<Written>> {
    match r
    case Ok(rest) => Ok(files + rest)
    case Err(e) => Err(e)
  }

  /** The loop of `file_generations` over the items and the copies of the body. */
  method NameGenerated(name: string, l: Loop) returns (r: Outcome<seq<Written>>)
    requires |l.chunks| == |l.items|
    ensures r == NameFiles(name, l, 0)
  {
    var files: seq<Written> := [];
    assert PrependFiles([], NameFiles(name, l, 0)) == NameFiles(name, l, 0) by {
      if NameFiles(name, l, 0).Ok? {
        assert [] + NameFiles(name, l, 0).value == NameFiles(name, l, 0).value;
      }
    }
    for i := 0 to |l.items|
      invariant NameFiles(name, l, 0) == PrependFiles(files, NameFiles(name, l, i))
    {
      var filename := Replace(name, l.replacee, Str(l.items[i]));
      if filename == name {
        return Err(Fatal(FileNameUnchanged, AtLine(l.next)));
      }
      var w := Written(Sibling(filename + ".mcfunction"), l.chunks[i]);
      if NameFiles(name, l, i + 1).Ok? {
        assert files + ([w] + NameFiles(name, l, i + 1).value) == (files + [w]) + NameFiles(name, l, i + 1).value;
      }
      files := files + [w];
    }
    assert NameFiles(name, l, |l.items|) == Ok([]);
    assert files + [] == files;
    return Ok(files);
  }

  /** `output` and `written` put in front of what the rest of a template renders to. */
  function PrependRendered(output: string, written: seq<Written>, r: Outcome<Rendered>): Outcome<Rendered> {
    match r
    case Ok(rest) => Ok(Rendered(output + rest.text, written + rest.written))
    case Err(e) => Err(e)
  }

  lemma RenderStep(vars: Option<Fields>, lines: seq<string>, pos: nat, e: Expansion,
                   output: string, written: seq<Written>)
    requires pos < |lines| && ExpandAt(vars, lines, pos) == Ok(e)
    ensures e.next <= |lines|
    ensures PrependRendered(output, written, ExpandFrom(vars, lines, pos))
            == PrependRendered(output + e.text, written + e.written, ExpandFrom(vars, lines, e.next))
  {
    var rest := ExpandFrom(vars, lines, e.next);
    if rest.Ok? {
      assert output + (e.text + rest.value.text) == (output + e.text) + rest.value.text;
      assert written + (e.written + rest.value.written) == (written + e.written) + rest.value.written;
    }
  }

  /** The `while lines.is_consumable()` loop of `build_pack` over one template. */
  method RenderTemplate(vars: Option<Fields>, template: seq<string>) returns (r: Outcome<Rendered>)
    ensures r == ExpandFrom(vars, template, 0)
  {
    var lines := new Consumable(template);
    var output := "";
    var written: seq<Written> := [];
    assert PrependRendered("", [], ExpandFrom(vars, template, 0)) == ExpandFrom(vars, template, 0) by {
      var x := ExpandFrom(vars, template, 0);
      if x.Ok? {
        assert "" + x.value.text == x.value.text && [] + x.value.written == x.value.written;
      }
    }
    while lines.IsConsumable()
      invariant lines.Valid() && lines.strings == template
      invariant ExpandFrom(vars, template, 0) == PrependRendered(output, written, ExpandFrom(vars, template, lines.index))
      decreases |template| - lines.index
    {
      var q := lines.index;
      var e := HandleLine(vars, lines);
      if e.Err? {
        return Err(e.error);
      }
      RenderStep(vars, template, q, e.value, output, written);
      output := output + e.value.text;
      written := written + e.value.written;
    }
    assert output + "" == output && written + [] == written;
    return Ok(Rendered(output, written));
  }

  /** The global replacements applied one after the other. */
  method ApplyReplacements(output: string, t: Fields) returns (r: Outcome<string>)
    ensures r == ReplaceAll(output, t)
  {
    var text := output;
    for i := 0 to |t|
      invariant ReplaceAll(output, t) == ReplaceAll(text, t[i..])
    {
      assert t[i..][1..] == t[i + 1..];
      match t[i].1
      case Atom(String(rep)) =>
        text := Replace(text, t[i].0, rep);
      case _ =>
        return Err(Crash(TypeError));
    }
    return Ok(text);
  }

  /** The per-file loop body of `build_pack` over the lines of one template. */
  method BuildFunctionFile(config: Fields, template: seq<string>) returns (r: Outcome<seq<Written>>)
    requires HasVariableTable(config)
    ensures r == FunctionFile(config, template)
  {
    var out := RenderTemplate(Variables(config), template);
    if out.Err? {
      return Err(out.error);
    }
    if IsBlank(out.value.text) {
      return Ok(out.value.written);
    }
    var table := FunctionReplacements(config);
    if table.Err? {
      return Err(table.error);
    }
    var text := ApplyReplacements(out.value.text, table.value);
    if text.Err? {
      return Err(text.error);
    }
    return Ok(out.value.written + [Written(Template, text.value)]);
  }

  // ---------------------------------------------------------------------
  // Properties of the expansion.

  /** Lines `q` up to `t` are ordinary lines: neither directives nor terminators. */
  predicate PlainRun(lines: seq<string>, q: nat, t: nat)
    requires q <= t <= |lines|
    decreases t - q
  {
    q == t || (!StartsWith(lines[q], "#@") && !IsTerminator(lines[q]) && PlainRun(lines, q + 1, t))
  }

  /** A directive line without a directive word, or with one other than
      `for` and `generate`, is fatal at the line after it. */
  lemma DirectiveErrors(vars: Option<Fields>, lines: seq<string>, pos: nat)
    requires pos < |lines| && StartsWith(lines[pos], "#@")
    ensures var tokens := Split(Strip(lines[pos]), ' ');
            && (|tokens| <= 1 ==> ExpandAt(vars, lines, pos) == Err(Fatal(MissingToken, AtLine(pos + 1))))
            && (|tokens| > 1 && tokens[1] != "for" && tokens[1] != "generate" ==>
                  ExpandAt(vars, lines, pos) == Err(Fatal(UnexpectedToken(tokens[1]), AtLine(pos + 1))))
  {
  }

  /** A line that is not a directive is copied as it is. */
  lemma PlainLine(vars: Option<Fields>, lines: seq<string>, q: nat)
    requires q < |lines| && !StartsWith(lines[q], "#@")
    ensures ExpandAt(vars, lines, q) == Ok(Expansion(lines[q], [], q + 1))
  {
  }

  /** A plain line is copied into the block unchanged. */
  lemma PlainCapture(vars: Option<Fields>, lines: seq<string>, q: nat)
    requires q < |lines| && !StartsWith(lines[q], "#@") && !IsTerminator(lines[q])
    ensures CaptureFrom(vars, lines, q) == Prepend([lines[q]], [], CaptureFrom(vars, lines, q + 1))
  {
    PlainLine(vars, lines, q);
    CaptureStep(vars, lines, q, Expansion(lines[q], [], q + 1));
  }

  /** The text of a `for` directive is the concatenation of its copies. */
  lemma ForStep(vars: Option<Fields>, lines: seq<string>, pos: nat, loop: Loop)
    requires pos < |lines| && StartsWith(lines[pos], "#@")
    requires var tokens := Split(Strip(lines[pos]), ' ');
             |tokens| > 1 && tokens[1] == "for" && ForLoopAt(vars, lines, pos + 1, tokens) == Ok(loop)
    ensures ExpandAt(vars, lines, pos) == Ok(Expansion(Concat(loop.chunks), loop.written, loop.next))
  {
  }

  /** A `generate` directive contributes no text. */
  lemma GenerateStep(vars: Option<Fields>, lines: seq<string>, pos: nat)
    requires pos < |lines| && StartsWith(lines[pos], "#@")
    requires var tokens := Split(Strip(lines[pos]), ' ');
             |tokens| > 1 && tokens[1] == "generate"
    ensures var g := GenerateAt(vars, lines, pos + 1, Split(Strip(lines[pos]), ' '));
            ExpandAt(vars, lines, pos) == if g.Ok? then Ok(Expansion("", g.value.written, g.value.next)) else Err(g.error)
  {
  }

  /** Lines that are neither directives nor terminators are copied into the
      block unchanged, and the terminator ends it. */
  lemma {:induction false} PlainBlock(vars: Option<Fields>, lines: seq<string>, q: nat, t: nat)
    requires q <= t < |lines| && IsTerminator(lines[t])
    requires PlainRun(lines, q, t)
    ensures CaptureFrom(vars, lines, q) == Ok(Block(lines[q..t], [], t + 1))
    decreases t - q
  {
    if q < t {
      PlainCapture(vars, lines, q);
      PlainBlock(vars, lines, q + 1, t);
      PrependLine(lines, q, t);
    } else {
      TerminatorStep(vars, lines, q);
      assert lines[q..t] == [];
    }
  }

  lemma PrependLine(lines: seq<string>, q: nat, t: nat)
    requires q < t <= |lines|
    ensures Prepend([lines[q]], [], Ok(Block(lines[q + 1..t], [], t + 1))) == Ok(Block(lines[q..t], [], t + 1))
  {
    var none: seq<Written> := [];
    assert lines[q..t] == [lines[q]] + lines[q + 1..t];
    assert none + none == none;
  }

  lemma TerminatorStep(vars: Option<Fields>, lines: seq<string>, q: nat)
    requires q < |lines| && IsTerminator(lines[q])
    ensures CaptureFrom(vars, lines, q) == Ok(Block([], [], q + 1))
  {
  }

  /** A block that is never terminated runs the cursor off the end. */
  lemma {:induction false} UnterminatedBlock(vars: Option<Fields>, lines: seq<string>, q: nat)
    requires q <= |lines|
    requires PlainRun(lines, q, |lines|)
    ensures CaptureFrom(vars, lines, q) == Err(Crash(IndexError))
    decreases |lines| - q
  {
    if q < |lines| {
      PlainCapture(vars, lines, q);
      UnterminatedBlock(vars, lines, q + 1);
    }
  }

  /** A `for` directive over a block of plain lines is replaced by one copy of
      the block's body per item, with the replacee replaced by the item, and
      the cursor moves past the terminator. */
  lemma ForDirective(vars: Option<Fields>, lines: seq<string>, pos: nat, t: nat, b: Binding)
    requires pos < t < |lines| && StartsWith(lines[pos], "#@")
    requires var tokens := Split(Strip(lines[pos]), ' ');
             |tokens| > 1 && tokens[1] == "for" && ParseForLoop(vars, tokens[1..], AtLine(pos + 1)) == Ok(b)
    requires IsTerminator(lines[t])
    requires PlainRun(lines, pos + 1, t)
    ensures ExpandAt(vars, lines, pos)
            == Ok(Expansion(Concat(Substitute(Body(lines[pos + 1..t]), b.replacee, b.items)), [], t + 1))
  {
    var tokens := Split(Strip(lines[pos]), ' ');
    var chunks := Substitute(Body(lines[pos + 1..t]), b.replacee, b.items);
    PlainLoop(vars, lines, pos + 1, t, tokens, b);
    ForStepText(vars, lines, pos, Loop(chunks, b.replacee, b.items, [], t + 1), Concat(chunks), t + 1);
  }

  /** `ForStep` for a loop that writes nothing itself, in the terms its
      caller has computed. */
  lemma ForStepText(vars: Option<Fields>, lines: seq<string>, pos: nat, loop: Loop, text: string, next: nat)
    requires pos < |lines| && StartsWith(lines[pos], "#@")
    requires var tokens := Split(Strip(lines[pos]), ' ');
             |tokens| > 1 && tokens[1] == "for" && ForLoopAt(vars, lines, pos + 1, tokens) == Ok(loop)
    requires Concat(loop.chunks) == text && loop.written == [] && loop.next == next
    ensures ExpandAt(vars, lines, pos) == Ok(Expansion(text, [], next))
  {
    ForStep(vars, lines, pos, loop);
  }

  /** The loop clause is checked before the block is read: its error wins
      even over a block that is never terminated. */
  lemma LoopClauseFirst(vars: Option<Fields>, lines: seq<string>, pos: nat, e: Error)
    requires pos < |lines| && StartsWith(lines[pos], "#@")
    requires var tokens := Split(Strip(lines[pos]), ' ');
             |tokens| > 1 && tokens[1] == "for" && ParseForLoop(vars, tokens[1..], AtLine(pos + 1)) == Err(e)
    ensures ExpandAt(vars, lines, pos) == Err(e)
  {
  }

  /** The files of a `generate`: one per item, named by the item, holding the
      copy of the body for that item; the first item that leaves the name
      unchanged is fatal instead. */
  lemma {:induction false} NameFilesFacts(name: string, l: Loop, i: nat)
    requires |l.chunks| == |l.items| && i <= |l.items|
    ensures var r := NameFiles(name, l, i);
            && (r.Ok? <==> forall j :: i <= j < |l.items| ==> Replace(name, l.replacee, Str(l.items[j])) != name)
            && (r.Err? ==> r.error == Fatal(FileNameUnchanged, AtLine(l.next)))
    ensures var r := NameFiles(name, l, i);
            r.Ok? ==> && |r.value| == |l.items| - i
                      && forall j :: i <= j < |l.items| ==> r.value[j - i] == NamedFile(name, l, j)
    decreases |l.items| - i
  {
    if i < |l.items| {
      NameFilesFacts(name, l, i + 1);
      var r := NameFiles(name, l, i);
      var rest := NameFiles(name, l, i + 1);
      var filename := Replace(name, l.replacee, Str(l.items[i]));
      assert r.Ok? <==> filename != name && rest.Ok?;
      if filename == name {
        assert r == Err(Fatal(FileNameUnchanged, AtLine(l.next)));
      } else if rest.Err? {
        assert r == rest;
      }
      if r.Ok? {
        assert rest.Ok? && r.value == [NamedFile(name, l, i)] + rest.value;
        forall j | i <= j < |l.items|
          ensures r.value[j - i] == NamedFile(name, l, j)
        {
          if j > i {
            assert r.value[j - i] == rest.value[j - (i + 1)];
          }
        }
      }
    }
  }

  /** File `j` of a `generate`: the name with the replacee replaced by item
      `j`, holding copy `j` of the body. */
  function NamedFile(name: string, l: Loop, j: nat): (w: Written)
    requires |l.chunks| == |l.items| && j < |l.items|
    ensures w.contents == l.chunks[j]
  {
    Written(Sibling(Replace(name, l.replacee, Str(l.items[j])) + ".mcfunction"), l.chunks[j])
  }

  /** A `generate` whose file name does not contain the loop's replacee can
      only succeed over no items. */
  lemma GenerateNeedsReplacee(name: string, l: Loop)
    requires |l.chunks| == |l.items| && |l.items| > 0
    requires l.replacee != [] && !Occurs(name, l.replacee)
    ensures NameFiles(name, l, 0) == Err(Fatal(FileNameUnchanged, AtLine(l.next)))
  {
    ReplaceAbsent(name, l.replacee, Str(l.items[0]));
  }

  /** A `generate` directive over a block of plain lines expands to nothing
      and writes the files `NameFiles` names. */
  lemma GenerateDirective(vars: Option<Fields>, lines: seq<string>, pos: nat, t: nat, b: Binding)
    requires pos < t < |lines| && StartsWith(lines[pos], "#@")
    requires var tokens := Split(Strip(lines[pos]), ' ');
             |tokens| > 2 && tokens[1] == "generate" && ParseForLoop(vars, tokens[3..], AtLine(pos + 1)) == Ok(b)
    requires IsTerminator(lines[t])
    requires PlainRun(lines, pos + 1, t)
    ensures ExpandAt(vars, lines, pos)
            == Generation(NameFiles(Split(Strip(lines[pos]), ' ')[2],
                                    Loop(Substitute(Body(lines[pos + 1..t]), b.replacee, b.items), b.replacee, b.items, [], t + 1), 0),
                          t + 1)
  {
    var tokens := Split(Strip(lines[pos]), ' ');
    var l := Loop(Substitute(Body(lines[pos + 1..t]), b.replacee, b.items), b.replacee, b.items, [], t + 1);
    PlainGenerateLoop(vars, lines, pos, t, tokens, b);
    GenerateLoopStep(vars, lines, pos, l, t + 1);
  }

  /** `GenerateStep` for a loop that writes nothing itself. */
  lemma GenerateLoopStep(vars: Option<Fields>, lines: seq<string>, pos: nat, l: Loop, next: nat)
    requires pos < |lines| && StartsWith(lines[pos], "#@")
    requires var tokens := Split(Strip(lines[pos]), ' ');
             && |tokens| > 2 && tokens[1] == "generate"
             && ForLoopAt(vars, lines, pos + 1, Drop(tokens, 2)) == Ok(l) && l.written == [] && l.next == next
    ensures ExpandAt(vars, lines, pos) == Generation(NameFiles(Split(Strip(lines[pos]), ' ')[2], l, 0), next)
  {
    var tokens := Split(Strip(lines[pos]), ' ');
    GenerateFromLoop(vars, lines, pos + 1, tokens, l);
    GenerateStep(vars, lines, pos);
  }

  /** What a `generate` directive whose files are `files` expands to: no
      text, those files and the cursor at `next`, or the error naming them. */
  function Generation(files: Outcome<seq<Written>>, next: nat): (r: Outcome<Expansion>)
    ensures r.Ok? <==> files.Ok?
    ensures r.Ok? ==> r.value.text == "" && r.value.written == files.value && r.value.next == next
    ensures r.Err? ==> r.error == files.error
  {
    if files.Ok? then Ok(Expansion("", files.value, next)) else Err(files.error)
  }

  /** The loop of a `generate` over a block of plain lines. */
  lemma PlainGenerateLoop(vars: Option<Fields>, lines: seq<string>, pos: nat, t: nat, tokens: seq<string>, b: Binding)
    requires pos < t < |lines| && |tokens| > 2 && ParseForLoop(vars, tokens[3..], AtLine(pos + 1)) == Ok(b)
    requires IsTerminator(lines[t]) && PlainRun(lines, pos + 1, t)
    ensures ForLoopAt(vars, lines, pos + 1, Drop(tokens, 2))
            == Ok(Loop(Substitute(Body(lines[pos + 1..t]), b.replacee, b.items), b.replacee, b.items, [], t + 1))
  {
    assert Drop(Drop(tokens, 2), 1) == tokens[3..];
    PlainLoop(vars, lines, pos + 1, t, Drop(tokens, 2), b);
  }

  /** A loop clause that parses, over a block of plain lines. */
  lemma PlainLoop(vars: Option<Fields>, lines: seq<string>, p: nat, t: nat, tokens: seq<string>, b: Binding)
    requires p <= t < |lines| && IsTerminator(lines[t]) && PlainRun(lines, p, t)
    requires ParseForLoop(vars, Drop(tokens, 1), AtLine(p)) == Ok(b)
    ensures ForLoopAt(vars, lines, p, tokens)
            == Ok(Loop(Substitute(Body(lines[p..t]), b.replacee, b.items), b.replacee, b.items, [], t + 1))
  {
    PlainBlock(vars, lines, p, t);
  }

  lemma GenerateFromLoop(vars: Option<Fields>, lines: seq<string>, p: nat, tokens: seq<string>, l: Loop)
    requires p <= |lines| && ForLoopAt(vars, lines, p, Drop(tokens, 2)) == Ok(l) && l.written == []
    ensures |tokens| > 2 && |l.chunks| == |l.items|
    ensures var files := NameFiles(tokens[2], l, 0);
            && (files.Ok? ==> GenerateAt(vars, lines, p, tokens) == Ok(Generated(files.value, l.next)))
            && (files.Err? ==> GenerateAt(vars, lines, p, tokens) == Err(files.error))
  {
    var files := NameFiles(tokens[2], l, 0);
    if files.Ok? {
      assert [] + files.value == files.value;
    }
  }

  /** A loop whose body does not mention the replacee repeats the body once
      per item. */
  lemma LoopWithoutReplacee(body: string, replacee: string, items: seq<Scalar>)
    requires replacee != [] && !Occurs(body, replacee)
    ensures forall i :: 0 <= i < |items| ==> Substitute(body, replacee, items)[i] == body
  {
    forall i | 0 <= i < |items|
      ensures Substitute(body, replacee, items)[i] == body
    {
      ReplaceAbsent(body, replacee, Str(items[i]));
    }
  }

  /** Dropping the comment character from every line of a commented block
      shortens the body by one character per line. */
  lemma {:induction false} CommentedBodyLength(block: seq<string>)
    requires AllCommented(block)
    ensures |Body(block)| + |block| == |Concat(block)|
  {
    if block != [] {
      CommentedBodyLength(block[1..]);
      assert Uncomment(block)[1..] == Uncomment(block[1..]);
    }
  }

  /** A template without directive lines renders to its own text and writes
      no other file. */
  lemma {:induction false} PlainTemplate(vars: Option<Fields>, lines: seq<string>, pos: nat)
    requires pos <= |lines|
    requires forall j :: pos <= j < |lines| ==> !StartsWith(lines[j], "#@")
    ensures ExpandFrom(vars, lines, pos) == Ok(Rendered(Concat(lines[pos..]), []))
    decreases |lines| - pos
  {
    if pos < |lines| {
      PlainLine(vars, lines, pos);
      PlainTemplate(vars, lines, pos + 1);
      assert lines[pos..][1..] == lines[pos + 1..];
      var none: seq<Written> := [];
      assert none + none == none;
      assert lines[pos..] == [lines[pos]] + lines[pos + 1..];
    }
  }

  /** The template's own file is written exactly when its rendered text is
      not blank, after the files its directives generate, and holds that text
      with the `function` replacements applied. A configuration without
      `global_replace` raises `KeyError` there, and a replacement that is not a
      string `TypeError`. */
  lemma TemplateWrittenUnlessBlank(config: Fields, template: seq<string>)
    requires HasVariableTable(config)
    requires ExpandFrom(Variables(config), template, 0).Ok?
    ensures var out := ExpandFrom(Variables(config), template, 0).value;
            var r := FunctionFile(config, template);
            && (IsBlank(out.text) ==> r == Ok(out.written))
            && (!IsBlank(out.text) && !Has(config, "global_replace") ==> r == Err(Crash(KeyError("global_replace"))))
            && (!IsBlank(out.text) && FunctionReplacements(config).Ok? ==>
                  var t := FunctionReplacements(config).value;
                  && (AllStrings(t) ==> r == Ok(out.written + [Written(Template, ReplaceAll(out.text, t).value)]))
                  && (!AllStrings(t) ==> r == Err(Crash(TypeError))))
  {
  }

  /** The replacements run one after the other: the second part of a table
      works on the text the first part left. */
  lemma {:induction false} ReplaceAllAppend(s: string, a: Fields, b: Fields)
    ensures ReplaceAll(s, a + b) == match ReplaceAll(s, a)
                                    case Ok(m) => ReplaceAll(m, b)
                                    case Err(e) => Err(e)
    decreases |a|
  {
    if a == [] {
      assert a + b == b;
    } else {
      assert (a + b)[0] == a[0] && (a + b)[1..] == a[1..] + b;
      match a[0].1
      case Atom(String(rep)) =>
        ReplaceAllAppend(Replace(s, a[0].0, rep), a[1..], b);
      case _ =>
    }
  }

  /** A table of strings whose keys are non-empty and absent from the text
      leaves the text as it is. */
  lemma {:induction false} ReplaceAllAbsent(s: string, table: Fields)
    requires AllStrings(table)
    requires forall k :: 0 <= k < |table| ==> table[k].0 != [] && !Occurs(s, table[k].0)
    ensures ReplaceAll(s, table) == Ok(s)
    decreases |table|
  {
    if table != [] {
      ReplaceAbsent(s, table[0].0, table[0].1.scalar.s);
      assert forall k :: 0 <= k < |table[1..]| ==> table[1..][k] == table[k + 1];
      ReplaceAllAbsent(s, table[1..]);
    }
  }

  /** Order matters: with `A` before `AB`, the text `AB` becomes `XB`, since
      `A` is replaced before `AB` is looked for. */
  lemma ReplaceAllOrder()
    ensures ReplaceAll("AB", [("A", Atom(String("X"))), ("AB", Atom(String("Y")))]) == Ok("XB")
  {
    var t: Fields := [("A", Atom(String("X"))), ("AB", Atom(String("Y")))];
    assert Replace("AB", "A", "X") == "XB" by {
      assert "AB"[..1] == "A" && "AB"[1..] == "B";
      assert Replace("B", "A", "X") == "B" by { assert "B"[..1] != "A"; }
    }
    assert Replace("XB", "AB", "Y") == "XB" by {
      assert "XB"[..2] != "AB";
      assert Replace("B", "AB", "Y") == "B";
    }
    assert t[1..][1..] == [];
  }

  /** With no global replacements the template's file holds exactly the text
      it rendered to. */
  lemma PlainTemplateFile(config: Fields, template: seq<string>)
    requires HasVariableTable(config)
    requires forall j :: 0 <= j < |template| ==> !StartsWith(template[j], "#@")
    requires FunctionReplacements(config) == Ok([])
    ensures !IsBlank(Concat(template)) ==> FunctionFile(config, template) == Ok([Written(Template, Concat(template))])
    ensures IsBlank(Concat(template)) ==> FunctionFile(config, template) == Ok([])
  {
    PlainTemplate(Variables(config), template, 0);
    assert template[0..] == template;
    UnreplacedFile(config, template, Rendered(Concat(template), []));
  }

  /** Without global replacements, a template that renders to text and no
      files writes that text to its own file unless it is blank. */
  lemma UnreplacedFile(config: Fields, template: seq<string>, out: Rendered)
    requires HasVariableTable(config)
    requires ExpandFrom(Variables(config), template, 0) == Ok(out) && out.written == []
    requires FunctionReplacements(config) == Ok([])
    ensures FunctionFile(config, template) == if IsBlank(out.text) then Ok([]) else Ok([Written(Template, out.text)])
  {
    if !IsBlank(out.text) {
      assert ReplaceAll(out.text, []) == Ok(out.text);
      assert out.written + [Written(Template, out.text)] == [Written(Template, out.text)];
    }
  }
}
