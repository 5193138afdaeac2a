/** The indentation-aware text accumulator of the generator (`TemplatePrinter`).

    The printer keeps an indentation level and an append-only text. Each `Put`
    writes one line, prefixed by `IndentLength` spaces per level; `Inc` and
    `Dec` move the level, `Dec` never going below zero. The block form of the
    `<|` operator runs a nested generator one level deeper and then lowers the
    level again.

    Besides the class, the module gives two value-level views of what a printer
    does, used as specifications:
    - `Line`/`Render`: a list of lines with depths relative to some base level, and
      the text they produce when put from that level;
    - `Cmd`/`Exec`: a generator written as a program of printer operations, and the
      printer state it leads to. */
module Printer {

  /** Spaces per indentation level (`indentLength`). */
  const IndentLength: nat := 2

  /** `String(repeating: " ", count: n)`. */
  function Spaces(n: nat): (r: string)
    ensures |r| == n
  {
    if n == 0 then "" else " " + Spaces(n - 1)
  }

  /** `Spaces(n)` consists of spaces only. */
  lemma {:induction false} SpacesOnly(n: nat)
    ensures forall i :: 0 <= i < n ==> Spaces(n)[i] == ' '
  {
    if n > 0 {
      SpacesOnly(n - 1);
      assert forall i :: 1 <= i < n ==> Spaces(n)[i] == Spaces(n - 1)[i - 1];
    }
  }

  /** The text `put` appends at indentation `level`. */
  function Indented(level: nat, s: string): string
  {
    Spaces(IndentLength * level) + s + "\n"
  }

  /** What `put(s)` appends: exactly `2 * level` spaces, then `s`, then one newline. */
  lemma IndentedShape(level: nat, s: string)
    ensures |Indented(level, s)| == 2 * level + |s| + 1
    ensures forall i :: 0 <= i < 2 * level ==> Indented(level, s)[i] == ' '
    ensures Indented(level, s)[2 * level..2 * level + |s|] == s
    ensures Indented(level, s)[2 * level + |s|] == '\n'
  {
    var r := Indented(level, s);
    assert r == Spaces(2 * level) + (s + "\n");
    SpacesOnly(2 * level);
  }

  /** A line put one level deeper carries exactly two more leading spaces. */
  lemma DeeperByTwoSpaces(level: nat, s: string)
    ensures Indented(level + 1, s) == "  " + Indented(level, s)
  {
    assert Spaces(IndentLength * (level + 1)) == " " + (" " + Spaces(IndentLength * level));
  }

  // ---------------------------------------------------------------------------
  // Lines and their rendering

  /** One emitted line: its depth relative to the level the list is put from. */
  datatype Line = Line(depth: nat, text: string)

  /** The text produced by putting `lines` in order, starting from level `base`. */
  function Render(lines: seq<Line>, base: nat): string
  {
    if lines == [] then "" else Indented(base + lines[0].depth, lines[0].text) + Render(lines[1..], base)
  }

  /** `lines` one level deeper: what a block around them produces. */
  function Nested(lines: seq<Line>): seq<Line>
  {
    seq(|lines|, k requires 0 <= k < |lines| => Line(lines[k].depth + 1, lines[k].text))
  }

  /** Rendering distributes over concatenation: lines are never lost or reordered. */
  lemma {:induction false} RenderAppend(a: seq<Line>, b: seq<Line>, base: nat)
    ensures Render(a + b, base) == Render(a, base) + Render(b, base)
  {
    if a == [] {
      assert a + b == b;
    } else {
      assert (a + b)[1..] == a[1..] + b;
      RenderAppend(a[1..], b, base);
    }
  }

  /** Rendering a nested list from `base` is rendering the list from `base + 1`. */
  lemma {:induction false} RenderNested(lines: seq<Line>, base: nat)
    ensures Render(Nested(lines), base) == Render(lines, base + 1)
  {
    if lines != [] {
      assert Nested(lines)[1..] == Nested(lines[1..]);
      RenderNested(lines[1..], base);
    }
  }

  /** Short literal lists of lines, rendered line by line. */
  lemma RenderOne(a: Line, base: nat)
    ensures Render([a], base) == Indented(base + a.depth, a.text)
  {
    assert [a][1..] == [];
  }

  lemma RenderTwo(a: Line, b: Line, base: nat)
    ensures Render([a, b], base) == Indented(base + a.depth, a.text) + Indented(base + b.depth, b.text)
  {
    assert [a, b][1..] == [b];
    RenderOne(b, base);
  }

  lemma RenderThree(a: Line, b: Line, c: Line, base: nat)
    ensures Render([a, b, c], base)
         == Indented(base + a.depth, a.text) + Indented(base + b.depth, b.text) + Indented(base + c.depth, c.text)
  {
    assert [a, b, c][1..] == [b, c];
    RenderTwo(b, c, base);
  }

  lemma AppendTwice(c0: string, c1: string, c2: string, x: string, y: string)
    requires c1 == c0 + x
    requires c2 == c1 + y
    ensures c2 == c0 + (x + y)
  {
  }

  /** Text appended in two steps is the rendering of the two pieces joined. */
  lemma RenderThen(c0: string, c1: string, c2: string, a: seq<Line>, b: seq<Line>, base: nat)
    requires c1 == c0 + Render(a, base)
    requires c2 == c1 + Render(b, base)
    ensures c2 == c0 + Render(a + b, base)
  {
    RenderAppend(a, b, base);
    AppendTwice(c0, c1, c2, Render(a, base), Render(b, base));
  }

  /** Text appended line by line is the rendering of the lines so far. */
  lemma RenderStep(c0: string, c1: string, c2: string, lines: seq<Line>, l: Line, base: nat)
    requires c1 == c0 + Render(lines, base)
    requires c2 == c1 + Indented(base + l.depth, l.text)
    ensures c2 == c0 + Render(lines + [l], base)
  {
    RenderOne(l, base);
    RenderThen(c0, c1, c2, lines, [l], base);
  }

  /** One, two or three lines put from `base` are the rendering of their list. */
  lemma PutOne(c0: string, c1: string, a: Line, base: nat)
    requires c1 == c0 + Indented(base + a.depth, a.text)
    ensures c1 == c0 + Render([a], base)
  {
    RenderOne(a, base);
  }

  lemma PutTwo(c0: string, c1: string, c2: string, a: Line, b: Line, base: nat)
    requires c1 == c0 + Indented(base + a.depth, a.text)
    requires c2 == c1 + Indented(base + b.depth, b.text)
    ensures c2 == c0 + Render([a, b], base)
  {
    RenderTwo(a, b, base);
    AppendTwice(c0, c1, c2, Indented(base + a.depth, a.text), Indented(base + b.depth, b.text));
  }

  lemma PutThree(c0: string, c1: string, c2: string, c3: string, a: Line, b: Line, c: Line, base: nat)
    requires c1 == c0 + Indented(base + a.depth, a.text)
    requires c2 == c1 + Indented(base + b.depth, b.text)
    requires c3 == c2 + Indented(base + c.depth, c.text)
    ensures c3 == c0 + Render([a, b, c], base)
  {
    RenderThree(a, b, c, base);
    PutTwo(c0, c1, c2, a, b, base);
    RenderTwo(a, b, base);
    AppendTwice(c0, c2, c3, Render([a, b], base), Indented(base + c.depth, c.text));
  }

  // ---------------------------------------------------------------------------
  // Generators as programs of printer operations

  /** The state of a printer: its level and its text. */
  datatype State = State(indent: nat, content: string)

  /** One printer operation a generator may perform. `Put` is also the string form
      of `<|`; `Block` is the generator form. */
  datatype Cmd = Put(text: string) | Inc | Dec | Block(body: seq<Cmd>)

  /** `dec`: one level lower, but never below zero. */
  function Lowered(indent: nat): nat
  {
    if indent > 0 then indent - 1 else 0
  }

  /** `dec` undoes `inc`. */
  lemma DecUndoesInc(level: nat)
    ensures Lowered(level + 1) == level
  {
  }

  /** The state after running `cmds` in order from `s`. */
  function Exec(cmds: seq<Cmd>, s: State): State
    decreases cmds
  {
    if cmds == [] then s else Exec(cmds[1..], ExecCmd(cmds[0], s))
  }

  /** The state after one operation. */
  function ExecCmd(c: Cmd, s: State): State
    decreases c
  {
    match c
    case Put(text) => State(s.indent, s.content + Indented(s.indent, text))
    case Inc => State(s.indent + 1, s.content)
    case Dec => State(Lowered(s.indent), s.content)
    case Block(body) =>
      var inner := Exec(body, State(s.indent + 1, s.content));
      State(Lowered(inner.indent), inner.content)
  }

  lemma {:induction false} ExecAppend(cmds: seq<Cmd>, c: Cmd, s: State)
    ensures Exec(cmds + [c], s) == ExecCmd(c, Exec(cmds, s))
    decreases cmds
  {
    if cmds == [] {
      assert [] + [c] == [c];
    } else {
      assert (cmds + [c])[1..] == cmds[1..] + [c];
      ExecAppend(cmds[1..], c, ExecCmd(cmds[0], s));
    }
  }

  /** Every operation and every run keeps the earlier text as a prefix. */
  lemma {:induction false} ExecAppendOnly(cmds: seq<Cmd>, s: State)
    ensures s.content <= Exec(cmds, s).content
    decreases cmds
  {
    if cmds != [] {
      ExecCmdAppendOnly(cmds[0], s);
      ExecAppendOnly(cmds[1..], ExecCmd(cmds[0], s));
    }
  }

  lemma {:induction false} ExecCmdAppendOnly(c: Cmd, s: State)
    ensures s.content <= ExecCmd(c, s).content
    decreases c
  {
    if c.Block? {
      ExecAppendOnly(c.body, State(s.indent + 1, s.content));
    }
  }

  /** A generator built only from puts and blocks (no bare `inc`/`dec`). */
  ghost predicate WellNested(cmds: seq<Cmd>)
    decreases cmds
  {
    forall k :: 0 <= k < |cmds| ==> WellNestedCmd(cmds[k])
  }

  ghost predicate WellNestedCmd(c: Cmd)
    decreases c
  {
    match c
    case Put(_) => true
    case Block(body) => WellNested(body)
    case _ => false
  }

  /** A well-nested generator leaves the level where it found it, from any level. */
  lemma {:induction false} WellNestedBalanced(cmds: seq<Cmd>, s: State)
    requires WellNested(cmds)
    ensures Exec(cmds, s).indent == s.indent
    decreases cmds
  {
    if cmds != [] {
      assert WellNestedCmd(cmds[0]);
      WellNestedCmdBalanced(cmds[0], s);
      assert WellNested(cmds[1..]) by {
        forall k | 0 <= k < |cmds[1..]| ensures WellNestedCmd(cmds[1..][k]) {
          assert cmds[1..][k] == cmds[k + 1];
        }
      }
      WellNestedBalanced(cmds[1..], ExecCmd(cmds[0], s));
    }
  }

  lemma {:induction false} WellNestedCmdBalanced(c: Cmd, s: State)
    requires WellNestedCmd(c)
    ensures ExecCmd(c, s).indent == s.indent
    decreases c
  {
    if c.Block? {
      WellNestedBalanced(c.body, State(s.indent + 1, s.content));
    }
  }

  /** The block form of `<|` restores the level exactly when its generator,
      started one level deeper, ends at that deeper level. */
  lemma BlockRestoresIndent(body: seq<Cmd>, s: State)
    ensures ExecCmd(Block(body), s).indent == s.indent
        <==> (|| Exec(body, State(s.indent + 1, s.content)).indent == s.indent + 1
              || (s.indent == 0 && Exec(body, State(s.indent + 1, s.content)).indent == 0))
  {
  }

  /** The generator `put t1; ...; put tn`. */
  function Puts(texts: seq<string>): (r: seq<Cmd>)
    ensures |r| == |texts|
    ensures WellNested(r)
  {
    seq(|texts|, k requires 0 <= k < |texts| => Put(texts[k]))
  }

  /** The same texts as lines of depth zero. */
  function Flat(texts: seq<string>): seq<Line>
  {
    seq(|texts|, k requires 0 <= k < |texts| => Line(0, texts[k]))
  }

  lemma {:induction false} ExecPuts(texts: seq<string>, s: State)
    ensures Exec(Puts(texts), s) == State(s.indent, s.content + Render(Flat(texts), s.indent))
    decreases texts
  {
    if texts == [] {
      assert Puts(texts) == [];
      assert Flat(texts) == [];
    } else {
      assert Puts(texts)[1..] == Puts(texts[1..]);
      assert Flat(texts)[1..] == Flat(texts[1..]);
      ExecPuts(texts[1..], ExecCmd(Put(texts[0]), s));
    }
  }

  /** Lines put inside a block are the lines put outside it, one level deeper,
      and the level afterwards is the level before. */
  lemma BlockOfPuts(texts: seq<string>, s: State)
    ensures ExecCmd(Block(Puts(texts)), s)
         == State(s.indent, s.content + Render(Nested(Flat(texts)), s.indent))
  {
    ExecPuts(texts, State(s.indent + 1, s.content));
    BlockRuns(Puts(texts), s);
    RenderNested(Flat(texts), s.indent);
  }

  /** A block runs its generator one level deeper, then lowers the level. */
  lemma BlockRuns(body: seq<Cmd>, s: State)
    ensures ExecCmd(Block(body), s)
         == State(Lowered(Exec(body, State(s.indent + 1, s.content)).indent), Exec(body, State(s.indent + 1, s.content)).content)
  {
  }

  // ---------------------------------------------------------------------------
  // The printer itself

  class TemplatePrinter {
    var indent: nat
    var content: string

    /** The abstract state of this printer. */
    function Snapshot(): State
      reads this
    {
      State(indent, content)
    }

    constructor ()
      ensures indent == 0 && content == ""
    {
      indent := 0;
      content := "";
    }

    /** `inc`: one level deeper; the text is untouched. */
    method Inc()
      modifies this
      ensures indent == old(indent) + 1
      ensures content == old(content)
    {
      indent := indent + 1;
    }

    /** `dec`: one level shallower when above zero, otherwise nothing; the text is untouched. */
    method Dec()
      modifies this
      ensures old(indent) > 0 ==> indent == old(indent) - 1
      ensures old(indent) == 0 ==> indent == 0
      ensures content == old(content)
    {
      if indent > 0 {
        indent := indent - 1;
      }
    }

    /** `put`: append one line at the current level; the level is untouched. */
    method Put(s: string)
      modifies this
      ensures indent == old(indent)
      ensures content == old(content) + Indented(old(indent), s)
    {
      content := content + Spaces(IndentLength * indent) + s + "\n";
    }

    /** The string form of `<|`: the same as `put`. */
    method PutLine(s: string)
      modifies this
      ensures indent == old(indent)
      ensures content == old(content) + Indented(old(indent), s)
    {
      Put(s);
    }

    /** The generator form of `<|`: `inc`, run the generator, `dec`. */
    method PutBlock(body: seq<Cmd>)
      modifies this
      ensures Snapshot() == ExecCmd(Block(body), old(Snapshot()))
      decreases Block(body)
    {
      Inc();
      Run(body);
      Dec();
    }

    /** Run a generator against this printer. */
    method Run(cmds: seq<Cmd>)
      modifies this
      ensures Snapshot() == Exec(cmds, old(Snapshot()))
      decreases cmds
    {
      var i := 0;
      while i < |cmds|
        invariant 0 <= i <= |cmds|
        invariant Snapshot() == Exec(cmds[..i], old(Snapshot()))
        decreases |cmds| - i
      {
        assert cmds[i] in cmds;
        match cmds[i] {
          case Put(text) => Put(text);
          case Inc => Inc();
          case Dec => Dec();
          case Block(body) => PutBlock(body);
        }
        assert cmds[..i + 1] == cmds[..i] + [cmds[i]];
        ExecAppend(cmds[..i], cmds[i], old(Snapshot()));
        i := i + 1;
      }
      assert cmds[..i] == cmds;
    }
  }
}
