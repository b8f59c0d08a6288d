/**
 * The text sink the emitters print through (io::Printer), abstracted to
 * the sequence of Print calls made on it, each with the indentation in
 * effect, and an indentation counter.
 */
module Printing {
  import opened StrUtil

  /** One output line: the indentation in effect when it was printed, and its text. */
  datatype Line = Line(indent: nat, text: string)

  /**
   * One Print call: the indentation in effect and its text, given as the
   * list of its newline-separated lines (the text always ends in a newline).
   */
  datatype Chunk = Chunk(indent: nat, texts: seq<string>)

  /** The lines one Print call at indentation ind adds. */
  function TextLines(ind: nat, texts: seq<string>): seq<Line>
  {
    if |texts| == 0 then [] else [Line(ind, texts[0])] + TextLines(ind, texts[1..])
  }

  /** Line i of a Print call is its i-th text at the call's indentation. */
  lemma {:induction false} TextLinesAt(ind: nat, texts: seq<string>)
    ensures |TextLines(ind, texts)| == |texts|
    ensures forall i :: 0 <= i < |texts| ==> TextLines(ind, texts)[i] == Line(ind, texts[i])
  {
    if |texts| > 0 {
      TextLinesAt(ind, texts[1..]);
    }
  }

  lemma TextLinesOne(ind: nat, a: string)
    ensures TextLines(ind, [a]) == [Line(ind, a)]
  {
    assert [a][1..] == [];
  }

  lemma TextLinesTwo(ind: nat, a: string, b: string)
    ensures TextLines(ind, [a, b]) == [Line(ind, a), Line(ind, b)]
  {
    assert [a, b][1..] == [b];
    TextLinesOne(ind, b);
  }

  lemma TextLinesThree(ind: nat, a: string, b: string, c: string)
    ensures TextLines(ind, [a, b, c]) == [Line(ind, a), Line(ind, b), Line(ind, c)]
  {
    assert [a, b, c][1..] == [b, c];
    TextLinesTwo(ind, b, c);
  }

  /** The lines a sequence of Print calls produces, in order. */
  function Lines(cs: seq<Chunk>): seq<Line>
  {
    if |cs| == 0 then [] else Lines(cs[..|cs| - 1]) + TextLines(cs[|cs| - 1].indent, cs[|cs| - 1].texts)
  }

  /** Printing a then b gives the lines of a, then those of b. */
  lemma {:induction false} LinesAppend(a: seq<Chunk>, b: seq<Chunk>)
    ensures Lines(a + b) == Lines(a) + Lines(b)
    decreases |b|
  {
    if |b| == 0 {
      assert a + b == a;
    } else {
      var init := b[..|b| - 1];
      var c := b[|b| - 1];
      assert (a + b)[..|a + b| - 1] == a + init;
      LinesAppend(a, init);
      assert Lines(b) == Lines(init) + TextLines(c.indent, c.texts);
    }
  }

  lemma LinesOne(c: Chunk)
    ensures Lines([c]) == TextLines(c.indent, c.texts)
  {
    assert [c][..0] == [];
  }

  lemma LinesTwo(c: Chunk, e: Chunk)
    ensures Lines([c, e]) == TextLines(c.indent, c.texts) + TextLines(e.indent, e.texts)
  {
    assert [c, e][..1] == [c];
    LinesOne(c);
  }

  lemma LinesThree(c: Chunk, e: Chunk, g: Chunk)
    ensures Lines([c, e, g]) == TextLines(c.indent, c.texts) + TextLines(e.indent, e.texts) + TextLines(g.indent, g.texts)
  {
    assert [c, e, g][..2] == [c, e];
    LinesTwo(c, e);
  }

  /** The first line printed is the first line of the first Print call. */
  lemma LinesHead(cs: seq<Chunk>)
    requires |cs| > 0 && |cs[0].texts| > 0
    ensures |Lines(cs)| > 0 && Lines(cs)[0] == Line(cs[0].indent, cs[0].texts[0])
  {
    assert cs == [cs[0]] + cs[1..];
    LinesAppend([cs[0]], cs[1..]);
    LinesOne(cs[0]);
    TextLinesAt(cs[0].indent, cs[0].texts);
  }

  /** When every Print call has exactly one line, line i is call i's text. */
  lemma {:induction false} LinesOfSingles(cs: seq<Chunk>)
    requires forall i :: 0 <= i < |cs| ==> |cs[i].texts| == 1
    ensures |Lines(cs)| == |cs|
    ensures forall i :: 0 <= i < |cs| ==> Lines(cs)[i] == Line(cs[i].indent, cs[i].texts[0])
    decreases |cs|
  {
    if |cs| > 0 {
      var init := cs[..|cs| - 1];
      var c := cs[|cs| - 1];
      LinesOfSingles(init);
      assert c.texts == [c.texts[0]];
      TextLinesOne(c.indent, c.texts[0]);
      assert Lines(cs) == Lines(init) + [Line(c.indent, c.texts[0])];
      assert forall i :: 0 <= i < |init| ==> init[i] == cs[i];
    }
  }

  /**
   * A printer. Each Print call is recorded with the current indentation;
   * every line of it gets that indentation when rendered.
   */
  class Printer {
    var chunks: seq<Chunk>
    var indent: nat

    constructor ()
      ensures chunks == [] && indent == 0
    {
      chunks := [];
      indent := 0;
    }

    method Print(texts: seq<string>)
      modifies this
      ensures indent == old(indent)
      ensures chunks == old(chunks) + [Chunk(indent, texts)]
    {
      chunks := chunks + [Chunk(indent, texts)];
    }

    /** Two more spaces for every following line. */
    method Indent()
      modifies this
      ensures chunks == old(chunks) && indent == old(indent) + 2
    {
      indent := indent + 2;
    }

    /** Undoes one Indent; without a matching Indent the source reports a (debug-fatal) error. */
    method Outdent()
      requires indent >= 2
      modifies this
      ensures chunks == old(chunks) && indent == old(indent) - 2
    {
      indent := indent - 2;
    }
  }
}
