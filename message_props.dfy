/**
 * Properties of the text MessageGenerator::Generate emits: which lines
 * each field contributes and in what order, and how each generated
 * function starts and ends. The emitted lines are Lines of the Print
 * calls the section functions of MessageGen describe.
 */
module MessageProps {
  import opened StrUtil
  import opened Descriptor
  import opened Naming
  import opened TypeTables
  import opened Printing
  import opened MessageGen

  // ---------------------------------------------------------------------
  // Looking at emitted lines
  // ---------------------------------------------------------------------

  predicate StartsWith(s: string, p: string)
  {
    |p| <= |s| && s[..|p|] == p
  }

  /** The lines whose text starts with prefix, in order. */
  function Select(lines: seq<Line>, prefix: string): seq<Line>
  {
    if |lines| == 0 then []
    else (if StartsWith(lines[0].text, prefix) then [lines[0]] else []) + Select(lines[1..], prefix)
  }

  /** How many lines read exactly text. */
  function Count(lines: seq<Line>, text: string): nat
  {
    if |lines| == 0 then 0 else (if lines[0].text == text then 1 else 0) + Count(lines[1..], text)
  }

  lemma {:induction false} SelectAppend(a: seq<Line>, b: seq<Line>, prefix: string)
    ensures Select(a + b, prefix) == Select(a, prefix) + Select(b, prefix)
  {
    if |a| == 0 {
      assert a + b == b;
    } else {
      var h := if StartsWith(a[0].text, prefix) then [a[0]] else [];
      assert (a + b)[0] == a[0];
      assert (a + b)[1..] == a[1..] + b;
      assert Select(a + b, prefix) == h + Select(a[1..] + b, prefix);
      SelectAppend(a[1..], b, prefix);
      assert Select(a, prefix) == h + Select(a[1..], prefix);
    }
  }

  lemma {:induction false} CountAppend(a: seq<Line>, b: seq<Line>, text: string)
    ensures Count(a + b, text) == Count(a, text) + Count(b, text)
  {
    if |a| == 0 {
      assert a + b == b;
    } else {
      assert (a + b)[1..] == a[1..] + b;
      CountAppend(a[1..], b, text);
    }
  }

  lemma {:induction false} SelectNone(lines: seq<Line>, prefix: string)
    requires forall i :: 0 <= i < |lines| ==> !StartsWith(lines[i].text, prefix)
    ensures Select(lines, prefix) == []
  {
    if |lines| > 0 {
      SelectNone(lines[1..], prefix);
    }
  }

  lemma {:induction false} CountNone(lines: seq<Line>, text: string)
    requires forall i :: 0 <= i < |lines| ==> lines[i].text != text
    ensures Count(lines, text) == 0
  {
    if |lines| > 0 {
      CountNone(lines[1..], text);
    }
  }

  /** A text whose k-th character differs from the prefix's does not start with it. */
  lemma Differs(s: string, p: string, k: nat)
    requires k < |s| && k < |p| && s[k] != p[k]
    ensures !StartsWith(s, p)
  {
    if |p| <= |s| {
      assert s[..|p|][k] != p[k];
    }
  }

  lemma StartsWithAppend(s: string, t: string, p: string)
    requires StartsWith(s, p)
    ensures StartsWith(s + t, p)
  {
    assert (s + t)[..|p|] == s[..|p|];
  }

  // ---------------------------------------------------------------------
  // The same, one Print call at a time
  // ---------------------------------------------------------------------

  lemma SelectJoin(a: seq<Chunk>, b: seq<Chunk>, prefix: string)
    ensures Select(Lines(a + b), prefix) == Select(Lines(a), prefix) + Select(Lines(b), prefix)
  {
    LinesAppend(a, b);
    SelectAppend(Lines(a), Lines(b), prefix);
  }

  lemma CountJoin(a: seq<Chunk>, b: seq<Chunk>, text: string)
    ensures Count(Lines(a + b), text) == Count(Lines(a), text) + Count(Lines(b), text)
  {
    LinesAppend(a, b);
    CountAppend(Lines(a), Lines(b), text);
  }

  /** Parts that select nothing around a middle part leave only the middle's lines. */
  lemma SelectAround(a: seq<Chunk>, b: seq<Chunk>, c: seq<Chunk>, prefix: string)
    requires Select(Lines(a), prefix) == [] && Select(Lines(c), prefix) == []
    ensures Select(Lines(a + b + c), prefix) == Select(Lines(b), prefix)
  {
    SelectJoin(a, b, prefix);
    SelectJoin(a + b, c, prefix);
  }

  lemma CountAround(a: seq<Chunk>, b: seq<Chunk>, c: seq<Chunk>, text: string)
    ensures Count(Lines(a + b + c), text) == Count(Lines(a), text) + Count(Lines(b), text) + Count(Lines(c), text)
  {
    CountJoin(a, b, text);
    CountJoin(a + b, c, text);
  }

  lemma {:induction false} SelectTextsNone(d: nat, texts: seq<string>, prefix: string)
    requires forall i :: 0 <= i < |texts| ==> !StartsWith(texts[i], prefix)
    ensures Select(TextLines(d, texts), prefix) == []
  {
    if |texts| > 0 {
      var ls := TextLines(d, texts);
      assert ls[0] == Line(d, texts[0]);
      assert ls[1..] == TextLines(d, texts[1..]);
      SelectTextsNone(d, texts[1..], prefix);
    }
  }

  lemma {:induction false} CountTextsNone(d: nat, texts: seq<string>, text: string)
    requires forall i :: 0 <= i < |texts| ==> texts[i] != text
    ensures Count(TextLines(d, texts), text) == 0
  {
    if |texts| > 0 {
      var ls := TextLines(d, texts);
      assert ls[0] == Line(d, texts[0]);
      assert ls[1..] == TextLines(d, texts[1..]);
      CountTextsNone(d, texts[1..], text);
    }
  }

  /** A Print call none of whose lines starts with the prefix. */
  lemma SelectChunkNone(c: Chunk, prefix: string)
    requires forall i :: 0 <= i < |c.texts| ==> !StartsWith(c.texts[i], prefix)
    ensures Select(Lines([c]), prefix) == []
  {
    LinesOne(c);
    SelectTextsNone(c.indent, c.texts, prefix);
  }

  lemma CountChunkNone(c: Chunk, text: string)
    requires forall i :: 0 <= i < |c.texts| ==> c.texts[i] != text
    ensures Count(Lines([c]), text) == 0
  {
    LinesOne(c);
    CountTextsNone(c.indent, c.texts, text);
  }

  lemma SelectChunkOne(d: nat, t: string, prefix: string)
    requires StartsWith(t, prefix)
    ensures Select(Lines([Chunk(d, [t])]), prefix) == [Line(d, t)]
  {
    LinesOne(Chunk(d, [t]));
    var ls := TextLines(d, [t]);
    assert ls == [Line(d, t)] + TextLines(d, []);
    assert ls[1..] == [];
  }

  /** A Print call whose first line is text and whose other lines are not. */
  lemma CountChunkFirst(c: Chunk, text: string)
    requires |c.texts| > 0 && c.texts[0] == text
    requires forall i :: 0 < i < |c.texts| ==> c.texts[i] != text
    ensures Count(Lines([c]), text) == 1
  {
    LinesOne(c);
    var ls := TextLines(c.indent, c.texts);
    assert ls[0] == Line(c.indent, text);
    assert ls[1..] == TextLines(c.indent, c.texts[1..]);
    CountTextsNone(c.indent, c.texts[1..], text);
  }

  /** The three Print calls of a block: an opening line group, one line inside, and the closing brace. */
  lemma SelectBlock(h: Chunk, b: Chunk, c: Chunk, prefix: string)
    requires forall i :: 0 <= i < |h.texts| ==> !StartsWith(h.texts[i], prefix)
    requires forall i :: 0 <= i < |c.texts| ==> !StartsWith(c.texts[i], prefix)
    requires |b.texts| == 1 && StartsWith(b.texts[0], prefix)
    ensures Select(Lines([h, b, c]), prefix) == [Line(b.indent, b.texts[0])]
  {
    assert [h, b, c] == [h] + [b] + [c];
    assert b == Chunk(b.indent, [b.texts[0]]);
    SelectChunkNone(h, prefix);
    SelectChunkOne(b.indent, b.texts[0], prefix);
    SelectChunkNone(c, prefix);
    SelectJoin([h], [b], prefix);
    SelectJoin([h] + [b], [c], prefix);
  }

  lemma CountBlockNone(h: Chunk, b: Chunk, c: Chunk, text: string)
    requires forall i :: 0 <= i < |h.texts| ==> h.texts[i] != text
    requires forall i :: 0 <= i < |b.texts| ==> b.texts[i] != text
    requires forall i :: 0 <= i < |c.texts| ==> c.texts[i] != text
    ensures Count(Lines([h, b, c]), text) == 0
  {
    assert [h, b, c] == [h] + [b] + [c];
    CountChunkNone(h, text);
    CountChunkNone(b, text);
    CountChunkNone(c, text);
    CountJoin([h], [b], text);
    CountJoin([h] + [b], [c], text);
  }

  // ---------------------------------------------------------------------
  // Declarations
  // ---------------------------------------------------------------------

  /** The emitted class opens with its declaration and ends by setting _id to the raw message name. */
  lemma FirstAndLastLines(m: MessageType, d: nat)
    requires AllSupported(m.fields)
    ensures var ls := Lines(MessageChunks(m, d));
      |ls| >= 3
      && ls[0] == Line(d, "class Message" + m.name + " extends Message;")
      && ls[|ls| - 2] == Line(d + 4, "_id = \"" + m.name + "\";")
      && ls[|ls| - 1] == Line(d, "}")
  {
    var cs := MessageChunks(m, d);
    MessageChunksEnds(m, d);
    LinesHead(cs);
    var tail := DefaultPropertiesSection(m, d);
    assert cs == cs[..|cs| - 3] + tail;
    LinesAppend(cs[..|cs| - 3], tail);
    DefaultPropertiesLines(m, d);
  }

  lemma DefaultPropertiesLines(m: MessageType, d: nat)
    ensures Lines(DefaultPropertiesSection(m, d)) ==
      [Line(d, ""), Line(d, DefaultPropertiesHeader), Line(d, "{"), Line(d + 4, IdLine(m)), Line(d, "}")]
  {
    var t := DefaultPropertiesSection(m, d);
    LinesThree(t[0], t[1], t[2]);
    TextLinesThree(d, "", DefaultPropertiesHeader, "{");
    TextLinesOne(d + 4, IdLine(m));
    TextLinesOne(d, "}");
  }

  lemma {:induction false} ConstantsAt(fs: seq<Field>, d: nat)
    ensures |Constants(fs, d)| == |fs|
    ensures forall i :: 0 <= i < |fs| ==> Constants(fs, d)[i] == Chunk(d, [ConstantLine(fs[i])])
  {
    if |fs| > 0 {
      var init := fs[..|fs| - 1];
      ConstantsAt(init, d);
      var a, x := Constants(init, d), Chunk(d, [ConstantLine(fs[|fs| - 1])]);
      assert Constants(fs, d) == a + [x];
      forall i | 0 <= i < |fs|
        ensures (a + [x])[i] == Chunk(d, [ConstantLine(fs[i])])
      {
        if i < |init| {
          assert init[i] == fs[i] && (a + [x])[i] == a[i];
        } else {
          assert i == |a| && fs[i] == fs[|fs| - 1];
        }
      }
    }
  }

  /** One constant line per field, in declaration order, at the class's indentation. */
  lemma ConstantLinesAt(fs: seq<Field>, d: nat)
    ensures |Lines(Constants(fs, d))| == |fs|
    ensures forall i :: 0 <= i < |fs| ==> Lines(Constants(fs, d))[i] == Line(d, ConstantLine(fs[i]))
  {
    ConstantsAt(fs, d);
    LinesOfSingles(Constants(fs, d));
  }

  /**
   * A constant line names FieldConstantName(f) and gives the field number
   * in decimal, which reads back as the number.
   */
  lemma ConstantLineNamesField(f: Field)
    ensures ConstantLine(f) == "const " + FieldConstantName(f) + " = " + IntToDecimal(f.number) + ";"
    ensures ParseDecimal(IntToDecimal(f.number)) == f.number
  {
    var u := UpperString(f.name);
    assert "_FIELD_NUMBER = " == "_FIELD_NUMBER" + " = ";
    assert "const " + u + "_FIELD_NUMBER = " == "const " + (u + "_FIELD_NUMBER") + " = ";
    IntToDecimalRoundTrip(f.number);
  }

  lemma {:induction false} VariablesAt(fs: seq<Field>, d: nat)
    requires AllSupported(fs)
    ensures |Variables(fs, d)| == |fs|
    ensures forall i :: 0 <= i < |fs| ==> Variables(fs, d)[i] == Chunk(d, [VariableLine(fs[i])])
  {
    if |fs| > 0 {
      var init := fs[..|fs| - 1];
      VariablesAt(init, d);
      var a, x := Variables(init, d), Chunk(d, [VariableLine(fs[|fs| - 1])]);
      assert Variables(fs, d) == a + [x];
      forall i | 0 <= i < |fs|
        ensures (a + [x])[i] == Chunk(d, [VariableLine(fs[i])])
      {
        if i < |init| {
          assert init[i] == fs[i];
        }
      }
    }
  }

  /** One storage member per field, in declaration order, at the class's indentation. */
  lemma VariableLinesAt(fs: seq<Field>, d: nat)
    requires AllSupported(fs)
    ensures |Lines(Variables(fs, d))| == |fs|
    ensures forall i :: 0 <= i < |fs| ==> Lines(Variables(fs, d))[i] == Line(d, VariableLine(fs[i]))
  {
    VariablesAt(fs, d);
    LinesOfSingles(Variables(fs, d));
  }

  // ---------------------------------------------------------------------
  // Serialize
  // ---------------------------------------------------------------------

  /** The line a field's write call is printed on. */
  function WriteLine(f: Field, d: nat): Line
    requires IsSupported(f.fieldType)
  {
    Line(if f.repeated then d + 4 else d, WriteCall(f))
  }

  /** The write-call lines of the fields, in order. */
  function WriteLines(fs: seq<Field>, d: nat): seq<Line>
    requires AllSupported(fs)
  {
    if |fs| == 0 then [] else WriteLines(fs[..|fs| - 1], d) + [WriteLine(fs[|fs| - 1], d)]
  }

  lemma {:induction false} WriteLinesAt(fs: seq<Field>, d: nat)
    requires AllSupported(fs)
    ensures |WriteLines(fs, d)| == |fs|
    ensures forall i :: 0 <= i < |fs| ==> WriteLines(fs, d)[i] == WriteLine(fs[i], d)
  {
    if |fs| > 0 {
      var init := fs[..|fs| - 1];
      WriteLinesAt(init, d);
      var a, x := WriteLines(init, d), WriteLine(fs[|fs| - 1], d);
      assert WriteLines(fs, d) == a + [x];
      forall i | 0 <= i < |fs|
        ensures (a + [x])[i] == WriteLine(fs[i], d)
      {
        if i < |init| {
          assert init[i] == fs[i];
        }
      }
    }
  }

  lemma WriteCallStartsWithStream(f: Field)
    requires IsSupported(f.fieldType)
    ensures StartsWith(WriteCall(f), "stream.")
  {
    var p := "stream.";
    var t0 := p + GetSerializeMethodName(f.fieldType).value;
    StartsWithAppend(p, GetSerializeMethodName(f.fieldType).value, p);
    var t1 := t0 + "(";
    StartsWithAppend(t0, "(", p);
    var t2 := t1 + UpperString(f.name);
    StartsWithAppend(t1, UpperString(f.name), p);
    var t3 := t2 + "_FIELD_NUMBER, ";
    StartsWithAppend(t2, "_FIELD_NUMBER, ", p);
    var t4 := t3 + SafeFieldname(f.name);
    StartsWithAppend(t3, SafeFieldname(f.name), p);
    var end := if f.repeated then "[idx]);" else ");";
    StartsWithAppend(t4, end, p);
    assert WriteCall(f) == t4 + end;
  }

  /** A field's block makes its one write call... */
  lemma SerializeBlockSelect(f: Field, d: nat)
    requires IsSupported(f.fieldType)
    ensures Select(Lines(SerializeBlock(f, d)), "stream.") == [WriteLine(f, d)]
  {
    WriteCallStartsWithStream(f);
    if f.repeated {
      assert SerializeLoopHeader(f)[0] == 'f';
      Differs(SerializeLoopHeader(f), "stream.", 0);
      SelectBlock(Chunk(d, ["", SerializeLoopHeader(f), "{"]), Chunk(d + 4, [WriteCall(f)]), Chunk(d, ["}"]), "stream.");
    } else {
      SelectChunkOne(d, WriteCall(f), "stream.");
    }
  }

  /** ... and declares no loop index. */
  lemma SerializeBlockCount(f: Field, d: nat)
    requires IsSupported(f.fieldType)
    ensures Count(Lines(SerializeBlock(f, d)), IndexLocal) == 0
  {
    assert WriteCall(f)[0] == 's';
    if f.repeated {
      assert SerializeLoopHeader(f)[0] == 'f';
      CountBlockNone(Chunk(d, ["", SerializeLoopHeader(f), "{"]), Chunk(d + 4, [WriteCall(f)]), Chunk(d, ["}"]), IndexLocal);
    } else {
      CountChunkNone(Chunk(d, [WriteCall(f)]), IndexLocal);
    }
  }

  lemma {:induction false} SerializeBlocksSelect(fs: seq<Field>, d: nat)
    requires AllSupported(fs)
    ensures Select(Lines(SerializeBlocks(fs, d)), "stream.") == WriteLines(fs, d)
  {
    if |fs| > 0 {
      var init := fs[..|fs| - 1];
      SerializeBlocksSelect(init, d);
      SerializeBlockSelect(fs[|fs| - 1], d);
      SelectJoin(SerializeBlocks(init, d), SerializeBlock(fs[|fs| - 1], d), "stream.");
    }
  }

  lemma {:induction false} SerializeBlocksCount(fs: seq<Field>, d: nat)
    requires AllSupported(fs)
    ensures Count(Lines(SerializeBlocks(fs, d)), IndexLocal) == 0
  {
    if |fs| > 0 {
      var init := fs[..|fs| - 1];
      SerializeBlocksCount(init, d);
      SerializeBlockCount(fs[|fs| - 1], d);
      CountJoin(SerializeBlocks(init, d), SerializeBlock(fs[|fs| - 1], d), IndexLocal);
    }
  }

  /** The header and the index declaration write nothing; the index is declared iff some field is repeated. */
  lemma SerializeHeadLines(fs: seq<Field>, d: nat)
    ensures Select(Lines(SerializeHead(fs, d)), "stream.") == []
    ensures Count(Lines(SerializeHead(fs, d)), IndexLocal) == (if HasRepeated(fs) then 1 else 0)
  {
    var h := Chunk(d, [SerializeHeader, "{"]);
    var locals := SerializeLocals(fs, d + 4);
    Differs(SerializeHeader, "stream.", 0);
    SelectChunkNone(h, "stream.");
    CountChunkNone(h, IndexLocal);
    if HasRepeated(fs) {
      var l := Chunk(d + 4, [IndexLocal, ""]);
      Differs(IndexLocal, "stream.", 0);
      SelectChunkNone(l, "stream.");
      CountChunkFirst(l, IndexLocal);
    }
    SelectJoin([h], locals, "stream.");
    CountJoin([h], locals, IndexLocal);
  }

  lemma SerializeSectionSplit(fs: seq<Field>, d: nat)
    requires AllSupported(fs)
    ensures Select(Lines(SerializeSection(fs, d)), "stream.") == Select(Lines(SerializeBlocks(fs, d + 4)), "stream.")
    ensures Count(Lines(SerializeSection(fs, d)), IndexLocal) ==
      Count(Lines(SerializeHead(fs, d)), IndexLocal) + Count(Lines(SerializeBlocks(fs, d + 4)), IndexLocal)
  {
    var close := Chunk(d, ["}"]);
    SerializeHeadLines(fs, d);
    SelectChunkNone(close, "stream.");
    CountChunkNone(close, IndexLocal);
    SelectAround(SerializeHead(fs, d), SerializeBlocks(fs, d + 4), [close], "stream.");
    CountAround(SerializeHead(fs, d), SerializeBlocks(fs, d + 4), [close], IndexLocal);
  }

  /**
   * Serialize makes exactly one write call per field, in declaration order:
   * inside the element loop for a repeated field, unconditionally for a
   * singular one. It declares the loop index iff some field is repeated.
   */
  lemma SerializeWritesEachField(fs: seq<Field>, d: nat)
    requires AllSupported(fs)
    ensures |Select(Lines(SerializeSection(fs, d)), "stream.")| == |fs|
    ensures forall i :: 0 <= i < |fs| ==> Select(Lines(SerializeSection(fs, d)), "stream.")[i] == WriteLine(fs[i], d + 4)
    ensures Count(Lines(SerializeSection(fs, d)), IndexLocal) == (if HasRepeated(fs) then 1 else 0)
  {
    SerializeSectionSplit(fs, d);
    SerializeHeadLines(fs, d);
    SerializeBlocksSelect(fs, d + 4);
    SerializeBlocksCount(fs, d + 4);
    WriteLinesAt(fs, d + 4);
  }

  // ---------------------------------------------------------------------
  // Deserialize
  // ---------------------------------------------------------------------

  lemma BranchLines(f: Field, first: bool, d: nat)
    requires IsSupported(f.fieldType)
    ensures Lines(Branch(f, first, d)) ==
      [Line(d, TestLine(f, first)), Line(d, "{"), Line(d + 4, DecodeStatement(f)), Line(d, "}")]
  {
    var b := Branch(f, first, d);
    LinesThree(b[0], b[1], b[2]);
    TextLinesTwo(d, TestLine(f, first), "{");
    TextLinesOne(d + 4, DecodeStatement(f));
    TextLinesOne(d, "}");
  }

  lemma {:induction false} BranchesLength(fs: seq<Field>, d: nat)
    requires AllSupported(fs)
    ensures |Lines(Branches(fs, d))| == 4 * |fs|
  {
    if |fs| > 0 {
      var init := fs[..|fs| - 1];
      BranchesLength(init, d);
      BranchLines(fs[|fs| - 1], |fs| == 1, d);
      LinesAppend(Branches(init, d), Branch(fs[|fs| - 1], |fs| == 1, d));
    }
  }

  lemma SliceLeft(a: seq<Line>, b: seq<Line>, i: nat, j: nat)
    requires i <= j <= |a|
    ensures (a + b)[i..j] == a[i..j]
  {
  }

  lemma SliceRight(a: seq<Line>, b: seq<Line>)
    ensures (a + b)[|a|..|a| + |b|] == b
  {
  }

  /** Field i's branch is lines 4i to 4i + 3: the test, the brace, the decode statement, the closing brace. */
  lemma {:induction false} BranchesAt(fs: seq<Field>, d: nat)
    requires AllSupported(fs)
    ensures |Lines(Branches(fs, d))| == 4 * |fs|
    ensures forall i :: 0 <= i < |fs| ==>
      Lines(Branches(fs, d))[4 * i..4 * i + 4] == Lines(Branch(fs[i], i == 0, d))
  {
    if |fs| > 0 {
      var init := fs[..|fs| - 1];
      var f := fs[|fs| - 1];
      BranchesAt(init, d);
      BranchesLength(fs, d);
      var a, b := Lines(Branches(init, d)), Lines(Branch(f, |fs| == 1, d));
      LinesAppend(Branches(init, d), Branch(f, |fs| == 1, d));
      forall i | 0 <= i < |fs|
        ensures (a + b)[4 * i..4 * i + 4] == Lines(Branch(fs[i], i == 0, d))
      {
        if i < |init| {
          assert init[i] == fs[i];
          SliceLeft(a, b, 4 * i, 4 * i + 4);
        } else {
          assert i == |fs| - 1 && (i == 0) == (|fs| == 1);
          SliceRight(a, b);
        }
      }
    }
  }

  /** A branch tests the field number against the field's constant; only the first is a plain "if". */
  lemma TestLineNamesConstant(f: Field, first: bool)
    ensures TestLine(f, first) == (if first then "if" else "else if") + " (fieldNumber == " + FieldConstantName(f) + ")"
  {
    var u := UpperString(f.name);
    assert "_FIELD_NUMBER)" == "_FIELD_NUMBER" + ")";
    var kw := if first then "if" else "else if";
    assert kw + " (fieldNumber == " + u + "_FIELD_NUMBER)" == kw + " (fieldNumber == " + (u + "_FIELD_NUMBER") + ")";
  }

  lemma DeserializeHeadAt(fs: seq<Field>, d: nat)
    ensures Lines(DeserializeHead(fs, d)) ==
      [Line(d, ""), Line(d, DeserializeHeader), Line(d, "{"), Line(d + 4, TagLocals(fs)), Line(d + 4, ""),
       Line(d + 4, ReadTag), Line(d + 4, ""), Line(d + 4, LoopHead), Line(d + 4, "{"), Line(d + 8, FieldNumberLine(fs))]
  {
    var hs := DeserializeHead(fs, d);
    assert hs == [hs[0], hs[1], hs[2]] + [hs[3], hs[4]];
    LinesAppend([hs[0], hs[1], hs[2]], [hs[3], hs[4]]);
    LinesThree(hs[0], hs[1], hs[2]);
    LinesTwo(hs[3], hs[4]);
    TextLinesThree(d, "", DeserializeHeader, "{");
    TextLinesTwo(d + 4, TagLocals(fs), "");
    TextLinesTwo(d + 4, ReadTag, "");
    TextLinesTwo(d + 4, LoopHead, "{");
    TextLinesOne(d + 8, FieldNumberLine(fs));
  }

  lemma DeserializeTailAt(d: nat)
    ensures Lines(DeserializeTail(d)) == [Line(d + 8, ""), Line(d + 8, ReadTag), Line(d + 4, "}"), Line(d, "}")]
  {
    var t := DeserializeTail(d);
    LinesThree(t[0], t[1], t[2]);
    TextLinesTwo(d + 8, "", ReadTag);
    TextLinesOne(d + 4, "}");
    TextLinesOne(d, "}");
  }

  lemma DeserializeLines(fs: seq<Field>, d: nat)
    requires AllSupported(fs)
    ensures Lines(DeserializeSection(fs, d)) ==
      Lines(DeserializeHead(fs, d)) + Lines(Branches(fs, d + 8)) + Lines(DeserializeTail(d))
  {
    LinesAppend(DeserializeHead(fs, d) + Branches(fs, d + 8), DeserializeTail(d));
    LinesAppend(DeserializeHead(fs, d), Branches(fs, d + 8));
  }

  /** The lines that depend on whether there are fields are distinct in the two cases. */
  lemma DeserializeVariantsDiffer()
    ensures TagAndFieldNumberLocals != TagLocal
    ensures StoreFieldNumber != DiscardFieldNumber
  {
    assert TagAndFieldNumberLocals[13] != TagLocal[13];
    assert |StoreFieldNumber| != |DiscardFieldNumber|;
  }

  /** Where each part of a three-part sequence sits in the whole. */
  lemma ThreeParts(h: seq<Line>, b: seq<Line>, t: seq<Line>)
    ensures |h + b + t| == |h| + |b| + |t|
    ensures forall i :: 0 <= i < |h| ==> (h + b + t)[i] == h[i]
    ensures (h + b + t)[|h|..|h| + |b|] == b
    ensures (h + b + t)[|h| + |b|..] == t
  {
    assert (h + b + t)[|h|..|h| + |b|] == b;
  }

  /**
   * Deserialize declares fieldNumber iff there are fields, reads a tag
   * before looping while it is positive, dispatches with one branch per
   * field in order, and after the last branch (with no else) reads the next
   * tag, so an unmatched field number goes straight to the next tag.
   */
  lemma DeserializeShape(fs: seq<Field>, d: nat)
    requires AllSupported(fs)
    ensures var s := Lines(DeserializeSection(fs, d));
      |s| == 14 + 4 * |fs|
      && s[1] == Line(d, DeserializeHeader)
      && (s[3].text == TagAndFieldNumberLocals <==> |fs| > 0)
      && s[5] == Line(d + 4, ReadTag)
      && s[7] == Line(d + 4, LoopHead)
      && (s[9].text == StoreFieldNumber <==> |fs| > 0)
      && s[10..10 + 4 * |fs|] == Lines(Branches(fs, d + 8))
      && s[10 + 4 * |fs|..] == [Line(d + 8, ""), Line(d + 8, ReadTag), Line(d + 4, "}"), Line(d, "}")]
  {
    var h, b, t := Lines(DeserializeHead(fs, d)), Lines(Branches(fs, d + 8)), Lines(DeserializeTail(d));
    DeserializeLines(fs, d);
    DeserializeHeadAt(fs, d);
    DeserializeTailAt(d);
    BranchesLength(fs, d + 8);
    ThreeParts(h, b, t);
    DeserializeVariantsDiffer();
  }

  // ---------------------------------------------------------------------
  // GetSerializedSize
  // ---------------------------------------------------------------------

  function SizeLine(f: Field, d: nat): Line
    requires IsSupported(f.fieldType)
  {
    Line(if f.repeated then d + 4 else d, SizeTerm(f))
  }

  /** The size-term lines of the fields, in order. */
  function SizeLines(fs: seq<Field>, d: nat): seq<Line>
    requires AllSupported(fs)
  {
    if |fs| == 0 then [] else SizeLines(fs[..|fs| - 1], d) + [SizeLine(fs[|fs| - 1], d)]
  }

  lemma {:induction false} SizeLinesAt(fs: seq<Field>, d: nat)
    requires AllSupported(fs)
    ensures |SizeLines(fs, d)| == |fs|
    ensures forall i :: 0 <= i < |fs| ==> SizeLines(fs, d)[i] == SizeLine(fs[i], d)
  {
    if |fs| > 0 {
      var init := fs[..|fs| - 1];
      SizeLinesAt(init, d);
      var a, x := SizeLines(init, d), SizeLine(fs[|fs| - 1], d);
      assert SizeLines(fs, d) == a + [x];
      forall i | 0 <= i < |fs|
        ensures (a + [x])[i] == SizeLine(fs[i], d)
      {
        if i < |init| {
          assert init[i] == fs[i];
        }
      }
    }
  }

  lemma SizeTermStartsWithSum(f: Field)
    requires IsSupported(f.fieldType)
    ensures StartsWith(SizeTerm(f), "_size += ")
  {
    var p := "_size += ";
    assert SizeCall[..9] == p;
    var t1 := SizeCall + GetComputeSizeMethodName(f.fieldType).value;
    StartsWithAppend(SizeCall, GetComputeSizeMethodName(f.fieldType).value, p);
    var t2 := t1 + "(";
    StartsWithAppend(t1, "(", p);
    var t3 := t2 + UpperString(f.name);
    StartsWithAppend(t2, UpperString(f.name), p);
    var t4 := t3 + "_FIELD_NUMBER, ";
    StartsWithAppend(t3, "_FIELD_NUMBER, ", p);
    var t5 := t4 + SafeFieldname(f.name);
    StartsWithAppend(t4, SafeFieldname(f.name), p);
    var end := if f.repeated then "[idx]);" else ");";
    StartsWithAppend(t5, end, p);
    assert SizeTerm(f) == t5 + end;
  }

  lemma SizeBlockSelect(f: Field, d: nat)
    requires IsSupported(f.fieldType)
    ensures Select(Lines(SizeBlock(f, d)), "_size += ") == [SizeLine(f, d)]
  {
    SizeTermStartsWithSum(f);
    if f.repeated {
      assert SizeLoopHeader(f)[0] == 'f';
      Differs(SizeLoopHeader(f), "_size += ", 0);
      SelectBlock(Chunk(d, ["", SizeLoopHeader(f), "{"]), Chunk(d + 4, [SizeTerm(f)]), Chunk(d, ["}"]), "_size += ");
    } else {
      SelectChunkOne(d, SizeTerm(f), "_size += ");
    }
  }

  lemma SizeBlockCount(f: Field, d: nat)
    requires IsSupported(f.fieldType)
    ensures Count(Lines(SizeBlock(f, d)), IndexLocal) == 0
  {
    assert SizeTerm(f)[0] == '_';
    if f.repeated {
      assert SizeLoopHeader(f)[0] == 'f';
      CountBlockNone(Chunk(d, ["", SizeLoopHeader(f), "{"]), Chunk(d + 4, [SizeTerm(f)]), Chunk(d, ["}"]), IndexLocal);
    } else {
      CountChunkNone(Chunk(d, [SizeTerm(f)]), IndexLocal);
    }
  }

  lemma {:induction false} SizeBlocksSelect(fs: seq<Field>, d: nat)
    requires AllSupported(fs)
    ensures Select(Lines(SizeBlocks(fs, d)), "_size += ") == SizeLines(fs, d)
  {
    if |fs| > 0 {
      var init := fs[..|fs| - 1];
      SizeBlocksSelect(init, d);
      SizeBlockSelect(fs[|fs| - 1], d);
      SelectJoin(SizeBlocks(init, d), SizeBlock(fs[|fs| - 1], d), "_size += ");
    }
  }

  lemma {:induction false} SizeBlocksCount(fs: seq<Field>, d: nat)
    requires AllSupported(fs)
    ensures Count(Lines(SizeBlocks(fs, d)), IndexLocal) == 0
  {
    if |fs| > 0 {
      var init := fs[..|fs| - 1];
      SizeBlocksCount(init, d);
      SizeBlockCount(fs[|fs| - 1], d);
      CountJoin(SizeBlocks(init, d), SizeBlock(fs[|fs| - 1], d), IndexLocal);
    }
  }

  lemma SizeLocalsDeclareIndex(fs: seq<Field>, d: nat)
    ensures Count(Lines(SizeLocals(fs, d)), IndexLocal) == (if HasRepeated(fs) then 1 else 0)
    ensures Select(Lines(SizeLocals(fs, d)), "_size += ") == []
  {
    var first := Chunk(d, [SizeLocal]);
    var idx := if HasRepeated(fs) then [Chunk(d, [IndexLocal])] else [];
    Differs(SizeLocal, "_size += ", 0);
    CountChunkNone(first, IndexLocal);
    SelectChunkNone(first, "_size += ");
    if HasRepeated(fs) {
      Differs(IndexLocal, "_size += ", 0);
      CountChunkFirst(Chunk(d, [IndexLocal]), IndexLocal);
      SelectChunkNone(Chunk(d, [IndexLocal]), "_size += ");
    }
    CountJoin([first], idx, IndexLocal);
    SelectJoin([first], idx, "_size += ");
  }

  /** Header, locals and the zeroed sum add no term; the index is declared iff some field is repeated. */
  lemma SizeHeadLines(fs: seq<Field>, d: nat)
    ensures Select(Lines(SizeHead(fs, d)), "_size += ") == []
    ensures Count(Lines(SizeHead(fs, d)), IndexLocal) == (if HasRepeated(fs) then 1 else 0)
  {
    var h := Chunk(d, ["", SizeHeader, "{"]);
    var init := Chunk(d + 4, [SizeInit, ""]);
    SizeLocalsDeclareIndex(fs, d + 4);
    Differs(SizeHeader, "_size += ", 0);
    SelectChunkNone(h, "_size += ");
    CountChunkNone(h, IndexLocal);
    Differs(SizeInit, "_size += ", 6);
    SelectChunkNone(init, "_size += ");
    CountChunkNone(init, IndexLocal);
    SelectAround([h], SizeLocals(fs, d + 4), [init], "_size += ");
    CountAround([h], SizeLocals(fs, d + 4), [init], IndexLocal);
  }

  /** Returning the sum and closing the function add no term and no index. */
  lemma SizeTailLines(d: nat)
    ensures Lines(SizeTail(d)) == [Line(d + 4, ""), Line(d + 4, SizeReturn), Line(d, "}")]
    ensures Select(Lines(SizeTail(d)), "_size += ") == []
    ensures Count(Lines(SizeTail(d)), IndexLocal) == 0
  {
    var t := SizeTail(d);
    LinesTwo(t[0], t[1]);
    TextLinesTwo(d + 4, "", SizeReturn);
    TextLinesOne(d, "}");
    Differs(SizeReturn, "_size += ", 0);
    assert t == [t[0]] + [t[1]];
    SelectChunkNone(t[0], "_size += ");
    SelectChunkNone(t[1], "_size += ");
    SelectJoin([t[0]], [t[1]], "_size += ");
    CountChunkNone(t[0], IndexLocal);
    CountChunkNone(t[1], IndexLocal);
    CountJoin([t[0]], [t[1]], IndexLocal);
  }

  lemma SizeSectionSplit(fs: seq<Field>, d: nat)
    requires AllSupported(fs)
    ensures Select(Lines(SizeSection(fs, d)), "_size += ") == Select(Lines(SizeBlocks(fs, d + 4)), "_size += ")
    ensures Count(Lines(SizeSection(fs, d)), IndexLocal) ==
      Count(Lines(SizeHead(fs, d)), IndexLocal) + Count(Lines(SizeBlocks(fs, d + 4)), IndexLocal)
  {
    SizeHeadLines(fs, d);
    SizeTailLines(d);
    SelectAround(SizeHead(fs, d), SizeBlocks(fs, d + 4), SizeTail(d), "_size += ");
    CountAround(SizeHead(fs, d), SizeBlocks(fs, d + 4), SizeTail(d), IndexLocal);
  }

  /**
   * GetSerializedSize adds exactly one size term per field (per element
   * for a repeated one), in declaration order, and declares the loop index
   * iff some field is repeated.
   */
  lemma SizeSumsEachField(fs: seq<Field>, d: nat)
    requires AllSupported(fs)
    ensures |Select(Lines(SizeSection(fs, d)), "_size += ")| == |fs|
    ensures forall i :: 0 <= i < |fs| ==> Select(Lines(SizeSection(fs, d)), "_size += ")[i] == SizeLine(fs[i], d + 4)
    ensures Count(Lines(SizeSection(fs, d)), IndexLocal) == (if HasRepeated(fs) then 1 else 0)
  {
    SizeSectionSplit(fs, d);
    SizeHeadLines(fs, d);
    SizeBlocksSelect(fs, d + 4);
    SizeBlocksCount(fs, d + 4);
    SizeLinesAt(fs, d + 4);
  }

  lemma SizeHeadLength(fs: seq<Field>, d: nat)
    ensures |Lines(SizeHead(fs, d))| == 5 + |SizeLocals(fs, d)|
    ensures Lines(SizeHead(fs, d))[3 + |SizeLocals(fs, d + 4)|] == Line(d + 4, SizeInit)
  {
    var h := Chunk(d, ["", SizeHeader, "{"]);
    var locals := SizeLocals(fs, d + 4);
    var init := Chunk(d + 4, [SizeInit, ""]);
    LinesOfSingles(locals);
    LinesAppend([h] + locals, [init]);
    LinesAppend([h], locals);
    LinesOne(h);
    LinesOne(init);
    TextLinesThree(d, "", SizeHeader, "{");
    TextLinesTwo(d + 4, SizeInit, "");
  }

  /** The sum starts at zero before any term and is returned after the last. */
  lemma SizeSectionFrame(fs: seq<Field>, d: nat)
    requires AllSupported(fs)
    ensures var s := Lines(SizeSection(fs, d));
      var k := |SizeLocals(fs, d + 4)|;
      |s| >= 6 + k
      && s[3 + k] == Line(d + 4, SizeInit)
      && s[|s| - 2] == Line(d + 4, SizeReturn)
      && s[|s| - 1] == Line(d, "}")
  {
    var h, b, t := Lines(SizeHead(fs, d)), Lines(SizeBlocks(fs, d + 4)), Lines(SizeTail(d));
    LinesAppend(SizeHead(fs, d) + SizeBlocks(fs, d + 4), SizeTail(d));
    LinesAppend(SizeHead(fs, d), SizeBlocks(fs, d + 4));
    SizeHeadLength(fs, d);
    SizeTailLines(d);
    assert Lines(SizeSection(fs, d)) == h + b + t;
  }

  /** Two strings that share a prefix and a suffix are equal iff their middles are. */
  lemma Framed(p: string, a: string, b: string, q: string)
    ensures p + a + q == p + b + q <==> a == b
  {
    if p + a + q == p + b + q {
      assert |a| == |b|;
      assert a == (p + a + q)[|p|..|p| + |a|];
      assert b == (p + b + q)[|p|..|p| + |b|];
    }
  }

  /**
   * The size loop bounds its index by the field's raw name, while the
   * Serialize loop and both element accesses use SafeFieldname; the two loop
   * headers differ exactly for a field called "name", whose size loop then
   * reads name.Length rather than _name.Length.
   */
  lemma SizeLoopUsesRawName(f: Field)
    ensures SizeLoopHeader(f) != SerializeLoopHeader(f) <==> f.name == "name"
  {
    Framed("for (idx = 0; idx < ", f.name, SafeFieldname(f.name), ".Length; idx++)");
  }
}
