/**
 * Brace and indentation structure of the emitted class. Every Indent the
 * emitter issues comes in a pair after a "{" line and every Outdent pair
 * before the matching "}" line, so each line sits four spaces deeper than
 * the start for every brace open around it, and the class closes every
 * brace it opens.
 */
module MessageNesting {
  import opened Descriptor
  import opened TypeTables
  import opened Printing
  import opened MessageGen
  import opened MessageProps

  /** Neither an opening nor a closing brace line. */
  predicate Plain(t: string)
  {
    t != "{" && t != "}"
  }

  /**
   * Starting with k braces open, the lines are each indented base + 4 per
   * open brace (a closing brace at the level it closes) and leave k' open.
   */
  predicate NestsTo(lines: seq<Line>, base: nat, k: nat, k': nat)
    decreases |lines|
  {
    if |lines| == 0 then k == k'
    else if lines[0].text == "{" then
      lines[0].indent == base + 4 * k && NestsTo(lines[1..], base, k + 1, k')
    else if lines[0].text == "}" then
      k > 0 && lines[0].indent == base + 4 * (k - 1) && NestsTo(lines[1..], base, k - 1, k')
    else
      lines[0].indent == base + 4 * k && NestsTo(lines[1..], base, k, k')
  }

  /** The lines the Print calls cs produce nest from k open braces to k'. */
  predicate Nests(cs: seq<Chunk>, base: nat, k: nat, k': nat)
  {
    NestsTo(Lines(cs), base, k, k')
  }

  lemma {:induction false} NestsAppend(a: seq<Line>, b: seq<Line>, base: nat, k: nat, k1: nat, k2: nat)
    requires NestsTo(a, base, k, k1) && NestsTo(b, base, k1, k2)
    ensures NestsTo(a + b, base, k, k2)
    decreases |a|
  {
    if |a| == 0 {
      assert a + b == b;
    } else {
      assert (a + b)[0] == a[0];
      assert (a + b)[1..] == a[1..] + b;
      var next := if a[0].text == "{" then k + 1 else if a[0].text == "}" then k - 1 else k;
      NestsAppend(a[1..], b, base, next, k1, k2);
    }
  }

  /** Nesting balances the braces: what was open plus what opens equals what closes plus what stays open. */
  lemma {:induction false} NestsCount(lines: seq<Line>, base: nat, k: nat, k': nat)
    requires NestsTo(lines, base, k, k')
    ensures Count(lines, "{") + k == Count(lines, "}") + k'
    decreases |lines|
  {
    if |lines| > 0 {
      var next := if lines[0].text == "{" then k + 1 else if lines[0].text == "}" then k - 1 else k;
      NestsCount(lines[1..], base, next, k');
    }
  }

  lemma NestsJoin(a: seq<Chunk>, b: seq<Chunk>, base: nat, k: nat, k1: nat, k2: nat)
    requires Nests(a, base, k, k1) && Nests(b, base, k1, k2)
    ensures Nests(a + b, base, k, k2)
  {
    LinesAppend(a, b);
    NestsAppend(Lines(a), Lines(b), base, k, k1, k2);
  }

  lemma NestsJoin3(a: seq<Chunk>, b: seq<Chunk>, c: seq<Chunk>, base: nat, k: nat, k1: nat, k2: nat, k3: nat)
    requires Nests(a, base, k, k1) && Nests(b, base, k1, k2) && Nests(c, base, k2, k3)
    ensures Nests(a + b + c, base, k, k3)
  {
    NestsJoin(a, b, base, k, k1, k2);
    NestsJoin(a + b, c, base, k, k2, k3);
  }

  // ---------------------------------------------------------------------
  // Single chunks
  // ---------------------------------------------------------------------

  lemma {:induction false} PlainTextsNest(ind: nat, texts: seq<string>, base: nat, k: nat)
    requires ind == base + 4 * k
    requires forall i :: 0 <= i < |texts| ==> Plain(texts[i])
    ensures NestsTo(TextLines(ind, texts), base, k, k)
    decreases |texts|
  {
    if |texts| > 0 {
      PlainTextsNest(ind, texts[1..], base, k);
      var ls := TextLines(ind, texts);
      assert ls[0] == Line(ind, texts[0]) && ls[1..] == TextLines(ind, texts[1..]);
    }
  }

  /** Plain texts ending in an opening brace, all at the current level, open one brace. */
  lemma {:induction false} OpenTextsNest(ind: nat, texts: seq<string>, base: nat, k: nat)
    requires ind == base + 4 * k
    requires |texts| > 0 && texts[|texts| - 1] == "{"
    requires forall i :: 0 <= i < |texts| - 1 ==> Plain(texts[i])
    ensures NestsTo(TextLines(ind, texts), base, k, k + 1)
    decreases |texts|
  {
    var ls := TextLines(ind, texts);
    assert ls[0] == Line(ind, texts[0]) && ls[1..] == TextLines(ind, texts[1..]);
    if |texts| == 1 {
      assert ls[1..] == [];
    } else {
      OpenTextsNest(ind, texts[1..], base, k);
    }
  }

  lemma PlainChunk(c: Chunk, base: nat, k: nat)
    requires c.indent == base + 4 * k
    requires forall i :: 0 <= i < |c.texts| ==> Plain(c.texts[i])
    ensures Nests([c], base, k, k)
  {
    LinesOne(c);
    PlainTextsNest(c.indent, c.texts, base, k);
  }

  lemma OpenChunk(c: Chunk, base: nat, k: nat)
    requires c.indent == base + 4 * k
    requires |c.texts| > 0 && c.texts[|c.texts| - 1] == "{"
    requires forall i :: 0 <= i < |c.texts| - 1 ==> Plain(c.texts[i])
    ensures Nests([c], base, k, k + 1)
  {
    LinesOne(c);
    OpenTextsNest(c.indent, c.texts, base, k);
  }

  lemma CloseChunk(base: nat, k: nat)
    ensures Nests([Chunk(base + 4 * k, ["}"])], base, k + 1, k)
  {
    LinesOne(Chunk(base + 4 * k, ["}"]));
    TextLinesOne(base + 4 * k, "}");
    assert [Line(base + 4 * k, "}")][1..] == [];
  }

  /** A header ending in "{", a body one level deeper and the closing brace leave the level as it was. */
  lemma BlockNests(h: Chunk, b: Chunk, base: nat, k: nat)
    requires h.indent == base + 4 * k
    requires |h.texts| > 0 && h.texts[|h.texts| - 1] == "{"
    requires forall i :: 0 <= i < |h.texts| - 1 ==> Plain(h.texts[i])
    requires b.indent == base + 4 * (k + 1)
    requires forall i :: 0 <= i < |b.texts| ==> Plain(b.texts[i])
    ensures Nests([h, b, Chunk(base + 4 * k, ["}"])], base, k, k)
  {
    OpenChunk(h, base, k);
    PlainChunk(b, base, k + 1);
    CloseChunk(base, k);
    NestsJoin3([h], [b], [Chunk(base + 4 * k, ["}"])], base, k, k + 1, k + 1, k);
    assert [h] + [b] + [Chunk(base + 4 * k, ["}"])] == [h, b, Chunk(base + 4 * k, ["}"])];
  }

  /** Chunks of plain texts, all at the current level, keep it. */
  lemma {:induction false} PlainChunksNest(cs: seq<Chunk>, base: nat, k: nat)
    requires forall i :: 0 <= i < |cs| ==> cs[i].indent == base + 4 * k
    requires forall i, j :: 0 <= i < |cs| && 0 <= j < |cs[i].texts| ==> Plain(cs[i].texts[j])
    ensures Nests(cs, base, k, k)
    decreases |cs|
  {
    if |cs| == 0 {
    } else {
      var init, last := cs[..|cs| - 1], cs[|cs| - 1];
      PlainChunksNest(init, base, k);
      PlainChunk(last, base, k);
      NestsJoin(init, [last], base, k, k, k);
      assert init + [last] == cs;
    }
  }

  // ---------------------------------------------------------------------
  // Declarations
  // ---------------------------------------------------------------------

  lemma ConstantsNest(fs: seq<Field>, d: nat)
    ensures Nests(Constants(fs, d), d, 0, 0)
  {
    var cs := Constants(fs, d);
    ConstantsAt(fs, d);
    forall i | 0 <= i < |cs|
      ensures cs[i].indent == d && |cs[i].texts| == 1 && Plain(cs[i].texts[0])
    {
      assert ConstantLine(fs[i])[0] == 'c';
    }
    PlainChunksNest(cs, d, 0);
  }

  lemma VariablesNest(fs: seq<Field>, d: nat)
    requires AllSupported(fs)
    ensures Nests(Variables(fs, d), d, 0, 0)
  {
    var cs := Variables(fs, d);
    VariablesAt(fs, d);
    forall i | 0 <= i < |cs|
      ensures cs[i].indent == d && |cs[i].texts| == 1 && Plain(cs[i].texts[0])
    {
      assert VariableLine(fs[i])[0] == 'v';
    }
    PlainChunksNest(cs, d, 0);
  }

  lemma DeclarationsNest(m: MessageType, d: nat)
    requires AllSupported(m.fields)
    ensures Nests(Declarations(m, d), d, 0, 0)
  {
    var fs := m.fields;
    var a := Chunk(d, [ClassDeclaration(m), ""]);
    var c := Chunk(d, [ConstantsComment]);
    var v := Chunk(d, ["", VariablesComment]);
    var e := Chunk(d, ["", FunctionsComment]);
    assert ClassDeclaration(m)[0] == 'c';
    PlainChunk(a, d, 0);
    PlainChunk(c, d, 0);
    PlainChunk(v, d, 0);
    PlainChunk(e, d, 0);
    ConstantsNest(fs, d);
    VariablesNest(fs, d);
    NestsJoin([c], Constants(fs, d), d, 0, 0, 0);
    NestsJoin([v], Variables(fs, d), d, 0, 0, 0);
    NestsJoin3([a], ConstantSection(fs, d), VariableSection(fs, d), d, 0, 0, 0, 0);
    NestsJoin([a] + ConstantSection(fs, d) + VariableSection(fs, d), [e], d, 0, 0, 0);
  }

  // ---------------------------------------------------------------------
  // Serialize
  // ---------------------------------------------------------------------

  lemma SerializeBlockNests(f: Field, base: nat, k: nat)
    requires IsSupported(f.fieldType)
    ensures Nests(SerializeBlock(f, base + 4 * k), base, k, k)
  {
    var d := base + 4 * k;
    assert WriteCall(f)[0] == 's';
    if f.repeated {
      assert SerializeLoopHeader(f)[0] == 'f';
      BlockNests(Chunk(d, ["", SerializeLoopHeader(f), "{"]), Chunk(d + 4, [WriteCall(f)]), base, k);
    } else {
      PlainChunk(Chunk(d, [WriteCall(f)]), base, k);
    }
  }

  lemma {:induction false} SerializeBlocksNest(fs: seq<Field>, base: nat, k: nat)
    requires AllSupported(fs)
    ensures Nests(SerializeBlocks(fs, base + 4 * k), base, k, k)
  {
    if |fs| > 0 {
      SerializeBlocksNest(fs[..|fs| - 1], base, k);
      SerializeBlockNests(fs[|fs| - 1], base, k);
      NestsJoin(SerializeBlocks(fs[..|fs| - 1], base + 4 * k), SerializeBlock(fs[|fs| - 1], base + 4 * k), base, k, k, k);
    }
  }

  lemma SerializeHeadNests(fs: seq<Field>, d: nat)
    ensures Nests(SerializeHead(fs, d), d, 0, 1)
  {
    OpenChunk(Chunk(d, [SerializeHeader, "{"]), d, 0);
    if HasRepeated(fs) {
      PlainChunk(Chunk(d + 4, [IndexLocal, ""]), d, 1);
    }
    NestsJoin([Chunk(d, [SerializeHeader, "{"])], SerializeLocals(fs, d + 4), d, 0, 1, 1);
  }

  lemma SerializeNests(fs: seq<Field>, d: nat)
    requires AllSupported(fs)
    ensures Nests(SerializeSection(fs, d), d, 0, 0)
  {
    SerializeHeadNests(fs, d);
    SerializeBlocksNest(fs, d, 1);
    CloseChunk(d, 0);
    NestsJoin3(SerializeHead(fs, d), SerializeBlocks(fs, d + 4), [Chunk(d, ["}"])], d, 0, 1, 1, 0);
  }

  // ---------------------------------------------------------------------
  // Deserialize
  // ---------------------------------------------------------------------

  lemma BranchNests(f: Field, first: bool, base: nat, k: nat)
    requires IsSupported(f.fieldType)
    ensures Nests(Branch(f, first, base + 4 * k), base, k, k)
  {
    var d := base + 4 * k;
    assert TestLine(f, first)[0] in "ie";
    assert |DecodeStatement(f)| > 1;
    BlockNests(Chunk(d, [TestLine(f, first), "{"]), Chunk(d + 4, [DecodeStatement(f)]), base, k);
  }

  lemma {:induction false} BranchesNest(fs: seq<Field>, base: nat, k: nat)
    requires AllSupported(fs)
    ensures Nests(Branches(fs, base + 4 * k), base, k, k)
  {
    if |fs| > 0 {
      BranchesNest(fs[..|fs| - 1], base, k);
      BranchNests(fs[|fs| - 1], |fs| == 1, base, k);
      NestsJoin(Branches(fs[..|fs| - 1], base + 4 * k), Branch(fs[|fs| - 1], |fs| == 1, base + 4 * k), base, k, k, k);
    }
  }

  lemma DeserializeHeadNests(fs: seq<Field>, d: nat)
    ensures Nests(DeserializeHead(fs, d), d, 0, 2)
  {
    var a := Chunk(d, ["", DeserializeHeader, "{"]);
    var b := Chunk(d + 4, [TagLocals(fs), ""]);
    var c := Chunk(d + 4, [ReadTag, ""]);
    var e := Chunk(d + 4, [LoopHead, "{"]);
    var g := Chunk(d + 8, [FieldNumberLine(fs)]);
    assert Nests([a] + [b] + [c], d, 0, 1) by {
      assert |TagLocals(fs)| > 1;
      OpenChunk(a, d, 0);
      PlainChunk(b, d, 1);
      PlainChunk(c, d, 1);
      NestsJoin3([a], [b], [c], d, 0, 1, 1, 1);
    }
    assert Nests([e] + [g], d, 1, 2) by {
      assert |FieldNumberLine(fs)| > 1;
      OpenChunk(e, d, 1);
      PlainChunk(g, d, 2);
      NestsJoin([e], [g], d, 1, 2, 2);
    }
    NestsJoin([a] + [b] + [c], [e] + [g], d, 0, 1, 2);
    assert [a] + [b] + [c] + ([e] + [g]) == DeserializeHead(fs, d);
  }

  lemma DeserializeTailNests(d: nat)
    ensures Nests(DeserializeTail(d), d, 2, 0)
  {
    PlainChunk(Chunk(d + 8, ["", ReadTag]), d, 2);
    CloseChunk(d, 1);
    CloseChunk(d, 0);
    NestsJoin3([Chunk(d + 8, ["", ReadTag])], [Chunk(d + 4, ["}"])], [Chunk(d, ["}"])], d, 2, 2, 1, 0);
    assert [Chunk(d + 8, ["", ReadTag])] + [Chunk(d + 4, ["}"])] + [Chunk(d, ["}"])] == DeserializeTail(d);
  }

  lemma DeserializeNests(fs: seq<Field>, d: nat)
    requires AllSupported(fs)
    ensures Nests(DeserializeSection(fs, d), d, 0, 0)
  {
    DeserializeHeadNests(fs, d);
    BranchesNest(fs, d, 2);
    DeserializeTailNests(d);
    NestsJoin3(DeserializeHead(fs, d), Branches(fs, d + 8), DeserializeTail(d), d, 0, 2, 2, 0);
  }

  // ---------------------------------------------------------------------
  // GetSerializedSize and defaultproperties
  // ---------------------------------------------------------------------

  lemma SizeBlockNests(f: Field, base: nat, k: nat)
    requires IsSupported(f.fieldType)
    ensures Nests(SizeBlock(f, base + 4 * k), base, k, k)
  {
    var d := base + 4 * k;
    assert SizeTerm(f)[0] == '_';
    if f.repeated {
      assert SizeLoopHeader(f)[0] == 'f';
      BlockNests(Chunk(d, ["", SizeLoopHeader(f), "{"]), Chunk(d + 4, [SizeTerm(f)]), base, k);
    } else {
      PlainChunk(Chunk(d, [SizeTerm(f)]), base, k);
    }
  }

  lemma {:induction false} SizeBlocksNest(fs: seq<Field>, base: nat, k: nat)
    requires AllSupported(fs)
    ensures Nests(SizeBlocks(fs, base + 4 * k), base, k, k)
  {
    if |fs| > 0 {
      SizeBlocksNest(fs[..|fs| - 1], base, k);
      SizeBlockNests(fs[|fs| - 1], base, k);
      NestsJoin(SizeBlocks(fs[..|fs| - 1], base + 4 * k), SizeBlock(fs[|fs| - 1], base + 4 * k), base, k, k, k);
    }
  }

  lemma SizeHeadNests(fs: seq<Field>, d: nat)
    ensures Nests(SizeHead(fs, d), d, 0, 1)
  {
    var h := Chunk(d, ["", SizeHeader, "{"]);
    var init := Chunk(d + 4, [SizeInit, ""]);
    OpenChunk(h, d, 0);
    PlainChunk(Chunk(d + 4, [SizeLocal]), d, 1);
    if HasRepeated(fs) {
      PlainChunk(Chunk(d + 4, [IndexLocal]), d, 1);
      NestsJoin([Chunk(d + 4, [SizeLocal])], [Chunk(d + 4, [IndexLocal])], d, 1, 1, 1);
    } else {
      assert SizeLocals(fs, d + 4) == [Chunk(d + 4, [SizeLocal])];
    }
    PlainChunk(init, d, 1);
    NestsJoin3([h], SizeLocals(fs, d + 4), [init], d, 0, 1, 1, 1);
  }

  lemma SizeTailNests(d: nat)
    ensures Nests(SizeTail(d), d, 1, 0)
  {
    PlainChunk(Chunk(d + 4, ["", SizeReturn]), d, 1);
    CloseChunk(d, 0);
    NestsJoin([Chunk(d + 4, ["", SizeReturn])], [Chunk(d, ["}"])], d, 1, 1, 0);
    assert [Chunk(d + 4, ["", SizeReturn])] + [Chunk(d, ["}"])] == SizeTail(d);
  }

  lemma SizeNests(fs: seq<Field>, d: nat)
    requires AllSupported(fs)
    ensures Nests(SizeSection(fs, d), d, 0, 0)
  {
    SizeHeadNests(fs, d);
    SizeBlocksNest(fs, d, 1);
    SizeTailNests(d);
    NestsJoin3(SizeHead(fs, d), SizeBlocks(fs, d + 4), SizeTail(d), d, 0, 1, 1, 0);
  }

  lemma DefaultPropertiesNest(m: MessageType, d: nat)
    ensures Nests(DefaultPropertiesSection(m, d), d, 0, 0)
  {
    assert IdLine(m)[0] == '_';
    BlockNests(Chunk(d, ["", DefaultPropertiesHeader, "{"]), Chunk(d + 4, [IdLine(m)]), d, 0);
  }

  // ---------------------------------------------------------------------
  // The whole class
  // ---------------------------------------------------------------------

  lemma FunctionsNest(fs: seq<Field>, d: nat)
    requires AllSupported(fs)
    ensures Nests(Functions(fs, d), d, 0, 0)
  {
    SerializeNests(fs, d);
    DeserializeNests(fs, d);
    SizeNests(fs, d);
    NestsJoin3(SerializeSection(fs, d), DeserializeSection(fs, d), SizeSection(fs, d), d, 0, 0, 0, 0);
  }

  /**
   * The emitted class nests: every line is indented four spaces per brace
   * open around it, relative to where printing started, and as many braces
   * close as open.
   */
  lemma MessageNests(m: MessageType, d: nat)
    requires AllSupported(m.fields)
    ensures NestsTo(Lines(MessageChunks(m, d)), d, 0, 0)
    ensures Count(Lines(MessageChunks(m, d)), "{") == Count(Lines(MessageChunks(m, d)), "}")
  {
    DeclarationsNest(m, d);
    FunctionsNest(m.fields, d);
    DefaultPropertiesNest(m, d);
    NestsJoin3(Declarations(m, d), Functions(m.fields, d), DefaultPropertiesSection(m, d), d, 0, 0, 0, 0);
    MessageChunksSplit(m, d);
    NestsCount(Lines(MessageChunks(m, d)), d, 0, 0);
  }
}
