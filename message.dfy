/**
 * The message emitter (us_message.cc): MessageGenerator prints one
 * UnrealScript class per message through a Printer. Each section of the
 * class is specified by a function of the message's fields and the
 * indentation in effect, and each printing method is proved to append
 * exactly that section.
 */
module MessageGen {
  import opened StrUtil
  import opened Descriptor
  import opened Naming
  import opened TypeTables
  import opened Printing

  /** Every field has an UnrealScript mapping; any other type is fatal in the source. */
  predicate AllSupported(fs: seq<Field>)
  {
    forall i :: 0 <= i < |fs| ==> IsSupported(fs[i].fieldType)
  }

  predicate HasRepeated(fs: seq<Field>)
  {
    exists i :: 0 <= i < |fs| && fs[i].repeated
  }

  // ---------------------------------------------------------------------
  // Fixed lines of the emitted class
  // ---------------------------------------------------------------------

  const ConstantsComment: string := "// Class constants"
  const VariablesComment: string := "// Class variables"
  const FunctionsComment: string := "// Class functions"
  const SerializeHeader: string := "function Serialize(CodedOutputStream stream)"
  const IndexLocal: string := "local int idx;"
  const DeserializeHeader: string := "function Deserialize(CodedInputStream stream)"
  const TagAndFieldNumberLocals: string := "local int tag, fieldNumber;"
  const TagLocal: string := "local int tag;"
  const ReadTag: string := "tag = stream.ReadTag();"
  const LoopHead: string := "while (tag > 0)"
  const StoreFieldNumber: string := "fieldNumber = class'WireFormat'.static.GetTagFieldNumber(tag);"
  const DiscardFieldNumber: string := "class'WireFormat'.static.GetTagFieldNumber(tag);"
  const SizeHeader: string := "function int GetSerializedSize()"
  const SizeLocal: string := "local int _size;"
  const SizeInit: string := "_size = 0;"
  const SizeReturn: string := "return _size;"
  const SizeCall: string := "_size += class'CodedUtil'.static."
  const DefaultPropertiesHeader: string := "defaultproperties"

  // ---------------------------------------------------------------------
  // Declarations
  // ---------------------------------------------------------------------

  function ClassDeclaration(m: MessageType): string
  {
    "class Message" + m.name + " extends Message;"
  }

  function ConstantLine(f: Field): string
  {
    "const " + UpperString(f.name) + "_FIELD_NUMBER = " + IntToDecimal(f.number) + ";"
  }

  /** One constant per field, in declaration order. */
  function Constants(fs: seq<Field>, d: nat): seq<Chunk>
  {
    if |fs| == 0 then [] else Constants(fs[..|fs| - 1], d) + [Chunk(d, [ConstantLine(fs[|fs| - 1])])]
  }

  function VariableLine(f: Field): string
    requires IsSupported(f.fieldType)
  {
    if f.repeated then "var array<" + StorageTypeName(f) + "> " + SafeFieldname(f.name) + ";"
    else "var " + StorageTypeName(f) + " " + SafeFieldname(f.name) + ";"
  }

  /** One storage member per field, in declaration order. */
  function Variables(fs: seq<Field>, d: nat): seq<Chunk>
    requires AllSupported(fs)
  {
    if |fs| == 0 then [] else Variables(fs[..|fs| - 1], d) + [Chunk(d, [VariableLine(fs[|fs| - 1])])]
  }

  // ---------------------------------------------------------------------
  // Serialize
  // ---------------------------------------------------------------------

  function SerializeLoopHeader(f: Field): string
  {
    "for (idx = 0; idx < " + SafeFieldname(f.name) + ".Length; idx++)"
  }

  function WriteCall(f: Field): string
    requires IsSupported(f.fieldType)
  {
    "stream." + GetSerializeMethodName(f.fieldType).value + "(" + UpperString(f.name) + "_FIELD_NUMBER, "
      + SafeFieldname(f.name) + (if f.repeated then "[idx]);" else ");")
  }

  /** A repeated field is written element by element in a loop; a singular one by one call. */
  function SerializeBlock(f: Field, d: nat): seq<Chunk>
    requires IsSupported(f.fieldType)
  {
    if f.repeated then [Chunk(d, ["", SerializeLoopHeader(f), "{"]), Chunk(d + 4, [WriteCall(f)]), Chunk(d, ["}"])]
    else [Chunk(d, [WriteCall(f)])]
  }

  function SerializeBlocks(fs: seq<Field>, d: nat): seq<Chunk>
    requires AllSupported(fs)
  {
    if |fs| == 0 then [] else SerializeBlocks(fs[..|fs| - 1], d) + SerializeBlock(fs[|fs| - 1], d)
  }

  function SerializeLocals(fs: seq<Field>, d: nat): seq<Chunk>
  {
    if HasRepeated(fs) then [Chunk(d, [IndexLocal, ""])] else []
  }

  /** The function header and, when needed, the loop index. */
  function SerializeHead(fs: seq<Field>, d: nat): seq<Chunk>
  {
    [Chunk(d, [SerializeHeader, "{"])] + SerializeLocals(fs, d + 4)
  }

  function SerializeSection(fs: seq<Field>, d: nat): seq<Chunk>
    requires AllSupported(fs)
  {
    SerializeHead(fs, d) + SerializeBlocks(fs, d + 4) + [Chunk(d, ["}"])]
  }

  // ---------------------------------------------------------------------
  // Deserialize
  // ---------------------------------------------------------------------

  function TestLine(f: Field, first: bool): string
  {
    (if first then "if" else "else if") + " (fieldNumber == " + UpperString(f.name) + "_FIELD_NUMBER)"
  }

  /** The statement that stores a decoded value: appended when repeated, assigned otherwise. */
  function DecodeStatement(f: Field): string
    requires IsSupported(f.fieldType)
  {
    var read := GetDeserializeMethodName(f.fieldType).value;
    var name := SafeFieldname(f.name);
    if f.repeated then
      if f.fieldType == Message then
        name + ".AddItem( " + "Message" + f.typeName + "(stream." + read + "(class'" + "Message" + f.typeName + "')) );"
      else
        name + ".AddItem(stream." + read + "());"
    else
      if f.fieldType == Message then
        name + " = " + "Message" + f.typeName + "(stream." + read + "(class'" + "Message" + f.typeName + "'));"
      else
        name + " = stream." + read + "();"
  }

  function Branch(f: Field, first: bool, d: nat): seq<Chunk>
    requires IsSupported(f.fieldType)
  {
    [Chunk(d, [TestLine(f, first), "{"]), Chunk(d + 4, [DecodeStatement(f)]), Chunk(d, ["}"])]
  }

  /** One branch per field in declaration order; only the first is a plain "if". */
  function Branches(fs: seq<Field>, d: nat): seq<Chunk>
    requires AllSupported(fs)
  {
    if |fs| == 0 then [] else Branches(fs[..|fs| - 1], d) + Branch(fs[|fs| - 1], |fs| == 1, d)
  }

  function TagLocals(fs: seq<Field>): string
  {
    if |fs| > 0 then TagAndFieldNumberLocals else TagLocal
  }

  function FieldNumberLine(fs: seq<Field>): string
  {
    if |fs| > 0 then StoreFieldNumber else DiscardFieldNumber
  }

  /** The function header, its locals, the first ReadTag and the loop head. */
  function DeserializeHead(fs: seq<Field>, d: nat): seq<Chunk>
  {
    [Chunk(d, ["", DeserializeHeader, "{"]), Chunk(d + 4, [TagLocals(fs), ""]), Chunk(d + 4, [ReadTag, ""]),
     Chunk(d + 4, [LoopHead, "{"]), Chunk(d + 8, [FieldNumberLine(fs)])]
  }

  /** The next ReadTag at the end of the loop body, and the two closing braces. */
  function DeserializeTail(d: nat): seq<Chunk>
  {
    [Chunk(d + 8, ["", ReadTag]), Chunk(d + 4, ["}"]), Chunk(d, ["}"])]
  }

  function DeserializeSection(fs: seq<Field>, d: nat): seq<Chunk>
    requires AllSupported(fs)
  {
    DeserializeHead(fs, d) + Branches(fs, d + 8) + DeserializeTail(d)
  }

  // ---------------------------------------------------------------------
  // GetSerializedSize
  // ---------------------------------------------------------------------

  /** The loop bound names the field by its raw name, not by its storage name. */
  function SizeLoopHeader(f: Field): string
  {
    "for (idx = 0; idx < " + f.name + ".Length; idx++)"
  }

  function SizeTerm(f: Field): string
    requires IsSupported(f.fieldType)
  {
    SizeCall + GetComputeSizeMethodName(f.fieldType).value + "(" + UpperString(f.name) + "_FIELD_NUMBER, "
      + SafeFieldname(f.name) + (if f.repeated then "[idx]);" else ");")
  }

  function SizeBlock(f: Field, d: nat): seq<Chunk>
    requires IsSupported(f.fieldType)
  {
    if f.repeated then [Chunk(d, ["", SizeLoopHeader(f), "{"]), Chunk(d + 4, [SizeTerm(f)]), Chunk(d, ["}"])]
    else [Chunk(d, [SizeTerm(f)])]
  }

  function SizeBlocks(fs: seq<Field>, d: nat): seq<Chunk>
    requires AllSupported(fs)
  {
    if |fs| == 0 then [] else SizeBlocks(fs[..|fs| - 1], d) + SizeBlock(fs[|fs| - 1], d)
  }

  function SizeLocals(fs: seq<Field>, d: nat): seq<Chunk>
  {
    [Chunk(d, [SizeLocal])] + (if HasRepeated(fs) then [Chunk(d, [IndexLocal])] else [])
  }

  /** The header, the locals and the zeroed sum. */
  function SizeHead(fs: seq<Field>, d: nat): seq<Chunk>
  {
    [Chunk(d, ["", SizeHeader, "{"])] + SizeLocals(fs, d + 4) + [Chunk(d + 4, [SizeInit, ""])]
  }

  function SizeTail(d: nat): seq<Chunk>
  {
    [Chunk(d + 4, ["", SizeReturn]), Chunk(d, ["}"])]
  }

  function SizeSection(fs: seq<Field>, d: nat): seq<Chunk>
    requires AllSupported(fs)
  {
    SizeHead(fs, d) + SizeBlocks(fs, d + 4) + SizeTail(d)
  }

  // ---------------------------------------------------------------------
  // defaultproperties and the whole class
  // ---------------------------------------------------------------------

  function IdLine(m: MessageType): string
  {
    "_id = \"" + m.name + "\";"
  }

  function DefaultPropertiesSection(m: MessageType, d: nat): seq<Chunk>
  {
    [Chunk(d, ["", DefaultPropertiesHeader, "{"]), Chunk(d + 4, [IdLine(m)]), Chunk(d, ["}"])]
  }

  /** The constants comment and one constant per field. */
  function ConstantSection(fs: seq<Field>, d: nat): seq<Chunk>
  {
    [Chunk(d, [ConstantsComment])] + Constants(fs, d)
  }

  /** The variables comment and one storage member per field. */
  function VariableSection(fs: seq<Field>, d: nat): seq<Chunk>
    requires AllSupported(fs)
  {
    [Chunk(d, ["", VariablesComment])] + Variables(fs, d)
  }

  /** Class declaration, constants and storage members. */
  function Declarations(m: MessageType, d: nat): seq<Chunk>
    requires AllSupported(m.fields)
  {
    [Chunk(d, [ClassDeclaration(m), ""])] + ConstantSection(m.fields, d) + VariableSection(m.fields, d)
    + [Chunk(d, ["", FunctionsComment])]
  }

  /** The three generated functions. */
  function Functions(fs: seq<Field>, d: nat): seq<Chunk>
    requires AllSupported(fs)
  {
    SerializeSection(fs, d) + DeserializeSection(fs, d) + SizeSection(fs, d)
  }

  /** The number of sections MessageGenerator::Generate prints. */
  const SectionCount: nat := 5

  /**
   * Section i of the class, in the order the generator prints them: the
   * declarations, Serialize, Deserialize, GetSerializedSize and the
   * defaultproperties block.
   */
  function Section(m: MessageType, d: nat, i: nat): seq<Chunk>
    requires AllSupported(m.fields)
    requires i < SectionCount
  {
    if i == 0 then Declarations(m, d)
    else if i == 1 then SerializeSection(m.fields, d)
    else if i == 2 then DeserializeSection(m.fields, d)
    else if i == 3 then SizeSection(m.fields, d)
    else DefaultPropertiesSection(m, d)
  }

  /** The first n sections, one after the other. */
  function Sections(m: MessageType, d: nat, n: nat): seq<Chunk>
    requires AllSupported(m.fields)
    requires n <= SectionCount
  {
    if n == 0 then [] else Sections(m, d, n - 1) + Section(m, d, n - 1)
  }

  /** Every Print call MessageGenerator::Generate makes for m, starting at indentation d. */
  function MessageChunks(m: MessageType, d: nat): seq<Chunk>
    requires AllSupported(m.fields)
  {
    Sections(m, d, SectionCount)
  }

  /** The class is its declarations, then its three functions, then defaultproperties. */
  lemma {:induction false} MessageChunksSplit(m: MessageType, d: nat)
    requires AllSupported(m.fields)
    ensures MessageChunks(m, d) == Declarations(m, d) + Functions(m.fields, d) + DefaultPropertiesSection(m, d)
  {
    var fs := m.fields;
    assert Sections(m, d, 1) == Declarations(m, d);
    assert Sections(m, d, 2) == Declarations(m, d) + SerializeSection(fs, d);
    assert Sections(m, d, 3) == Sections(m, d, 2) + DeserializeSection(fs, d);
    assert Sections(m, d, 4) == Sections(m, d, 3) + SizeSection(fs, d);
    assert Sections(m, d, 5) == Sections(m, d, 4) + DefaultPropertiesSection(m, d);
    AppendAssoc(Declarations(m, d), SerializeSection(fs, d), DeserializeSection(fs, d));
    AppendAssoc(Declarations(m, d), SerializeSection(fs, d) + DeserializeSection(fs, d), SizeSection(fs, d));
  }

  /** The class starts with its declaration and ends with the defaultproperties block. */
  lemma MessageChunksEnds(m: MessageType, d: nat)
    requires AllSupported(m.fields)
    ensures var cs := MessageChunks(m, d);
      |cs| > 3 && cs[0] == Chunk(d, [ClassDeclaration(m), ""])
      && cs[|cs| - 3..] == DefaultPropertiesSection(m, d)
  {
    MessageChunksSplit(m, d);
    var front := Declarations(m, d) + Functions(m.fields, d);
    assert front[0] == Chunk(d, [ClassDeclaration(m), ""]);
    assert (front + DefaultPropertiesSection(m, d))[|front|..] == DefaultPropertiesSection(m, d);
  }

  // ---------------------------------------------------------------------
  // SortFieldsByNumber (defined in the source, not called by the emitter)
  // ---------------------------------------------------------------------

  predicate SortedByNumber(a: seq<Field>)
  {
    forall i, j :: 0 <= i < j < |a| ==> a[i].number <= a[j].number
  }

  /** Copies the fields into a fresh array and sorts it by field number. */
  method SortFieldsByNumber(m: MessageType) returns (fields: array<Field>)
    ensures fresh(fields)
    ensures SortedByNumber(fields[..])
    ensures multiset(fields[..]) == multiset(m.fields)
  {
    fields := new Field[|m.fields|];
    for i := 0 to fields.Length
      invariant fields[..i] == m.fields[..i]
    {
      fields[i] := m.fields[i];
    }
    assert fields[..] == m.fields;
    SortByNumber(fields);
  }

  /** An in-place sort of the array by field number (the source uses std::sort). */
  method SortByNumber(a: array<Field>)
    modifies a
    ensures SortedByNumber(a[..])
    ensures multiset(a[..]) == multiset(old(a[..]))
  {
    if a.Length == 0 {
      return;
    }
    var i := 1;
    while i < a.Length
      invariant 1 <= i <= a.Length
      invariant SortedByNumber(a[..i])
      invariant multiset(a[..]) == multiset(old(a[..]))
    {
      InsertAt(a, i);
      i := i + 1;
    }
    assert a[..i] == a[..];
  }

  /**
   * While a[i] moves left: a[..i + 1] without position j is sorted, the
   * moving field is below everything after it, and its neighbours are in order.
   */
  predicate Inserting(s: seq<Field>, i: nat, j: nat)
    requires j <= i < |s|
  {
    (forall p, q :: 0 <= p < q <= i && p != j && q != j ==> s[p].number <= s[q].number)
    && (forall q :: j < q <= i ==> s[j].number < s[q].number)
    && (0 < j < i ==> s[j - 1].number <= s[j + 1].number)
  }

  /** Moves a[i] left into the sorted prefix a[..i]. */
  method InsertAt(a: array<Field>, i: nat)
    requires 1 <= i < a.Length
    requires SortedByNumber(a[..i])
    modifies a
    ensures SortedByNumber(a[..i + 1])
    ensures multiset(a[..]) == multiset(old(a[..]))
    ensures a[i + 1..] == old(a[i + 1..])
  {
    var j := i;
    while j > 0 && a[j - 1].number > a[j].number
      invariant 0 <= j <= i
      invariant a[i + 1..] == old(a[i + 1..])
      invariant multiset(a[..]) == multiset(old(a[..]))
      invariant Inserting(a[..], i, j)
    {
      ghost var s := a[..];
      a[j - 1], a[j] := a[j], a[j - 1];
      assert a[..] == s[j - 1 := s[j]][j := s[j - 1]];
      SwapKeepsInserting(s, i, j);
      SwapSameMultiset(s, j);
      j := j - 1;
    }
    InsertedSorted(a[..], i, j);
  }

  lemma SwapKeepsInserting(s: seq<Field>, i: nat, j: nat)
    requires 0 < j <= i < |s|
    requires Inserting(s, i, j)
    requires s[j - 1].number > s[j].number
    ensures Inserting(s[j - 1 := s[j]][j := s[j - 1]], i, j - 1)
  {
  }

  lemma SwapSameMultiset(s: seq<Field>, j: nat)
    requires 0 < j < |s|
    ensures multiset(s[j - 1 := s[j]][j := s[j - 1]]) == multiset(s)
  {
  }

  lemma InsertedSorted(s: seq<Field>, i: nat, j: nat)
    requires j <= i < |s|
    requires Inserting(s, i, j)
    requires j == 0 || s[j - 1].number <= s[j].number
    ensures SortedByNumber(s[..i + 1])
  {
  }

  lemma ConstantsStep(fs: seq<Field>, i: nat, d: nat)
    requires i < |fs|
    ensures Constants(fs[..i + 1], d) == Constants(fs[..i], d) + [Chunk(d, [ConstantLine(fs[i])])]
  {
    assert fs[..i + 1][..i] == fs[..i];
  }

  lemma VariablesStep(fs: seq<Field>, i: nat, d: nat)
    requires i < |fs|
    requires AllSupported(fs)
    ensures Variables(fs[..i + 1], d) == Variables(fs[..i], d) + [Chunk(d, [VariableLine(fs[i])])]
  {
    assert fs[..i + 1][..i] == fs[..i];
  }

  lemma SerializeBlocksStep(fs: seq<Field>, i: nat, d: nat)
    requires i < |fs|
    requires AllSupported(fs)
    ensures SerializeBlocks(fs[..i + 1], d) == SerializeBlocks(fs[..i], d) + SerializeBlock(fs[i], d)
  {
    assert fs[..i + 1][..i] == fs[..i];
  }

  lemma BranchesStep(fs: seq<Field>, i: nat, d: nat)
    requires i < |fs|
    requires AllSupported(fs)
    ensures Branches(fs[..i + 1], d) == Branches(fs[..i], d) + Branch(fs[i], i == 0, d)
  {
    assert fs[..i + 1][..i] == fs[..i];
  }

  lemma SizeBlocksStep(fs: seq<Field>, i: nat, d: nat)
    requires i < |fs|
    requires AllSupported(fs)
    ensures SizeBlocks(fs[..i + 1], d) == SizeBlocks(fs[..i], d) + SizeBlock(fs[i], d)
  {
    assert fs[..i + 1][..i] == fs[..i];
  }

  lemma AppendAssoc<T>(a: seq<T>, b: seq<T>, c: seq<T>)
    ensures (a + b) + c == a + (b + c)
  {
  }

  lemma AppendAssoc3<T>(l: seq<T>, a: seq<T>, b: seq<T>, c: seq<T>)
    ensures ((l + a) + b) + c == l + ((a + b) + c)
  {
  }

  lemma AppendAssoc4<T>(l: seq<T>, a: seq<T>, b: seq<T>, c: seq<T>, e: seq<T>)
    ensures (((l + a) + b) + c) + e == l + (a + ((b + c) + e))
  {
  }

  // ---------------------------------------------------------------------
  // The generator
  // ---------------------------------------------------------------------

  class MessageGenerator {
    const descriptor: MessageType

    constructor (descriptor: MessageType)
      ensures this.descriptor == descriptor
    {
      this.descriptor := descriptor;
    }

    /** Scans the fields in order and stops at the first repeated one. */
    method HasRepeatedField() returns (r: bool)
      ensures r == HasRepeated(descriptor.fields)
    {
      var fs := descriptor.fields;
      var i := 0;
      while i < |fs|
        invariant 0 <= i <= |fs|
        invariant forall k :: 0 <= k < i ==> !fs[k].repeated
      {
        if fs[i].repeated {
          return true;
        }
        i := i + 1;
      }
      return false;
    }

    method Generate(printer: Printer)
      requires AllSupported(descriptor.fields)
      modifies printer
      ensures printer.indent == old(printer.indent)
      ensures printer.chunks == old(printer.chunks) + MessageChunks(descriptor, old(printer.indent))
    {
      var d := printer.indent;
      ghost var fs := descriptor.fields;
      ghost var l0 := printer.chunks;
      PrintDeclarations(printer);
      PrintSerialize(printer);
      PrintDeserialize(printer);
      PrintSerializedSize(printer);
      PrintDefaultProperties(printer);
      AppendAssoc4(l0, Declarations(descriptor, d), SerializeSection(fs, d), DeserializeSection(fs, d), SizeSection(fs, d));
      AppendAssoc(l0, Declarations(descriptor, d) + Functions(fs, d), DefaultPropertiesSection(descriptor, d));
      MessageChunksSplit(descriptor, d);
    }

    method PrintDeclarations(printer: Printer)
      requires AllSupported(descriptor.fields)
      modifies printer
      ensures printer.indent == old(printer.indent)
      ensures printer.chunks == old(printer.chunks) + Declarations(descriptor, old(printer.indent))
    {
      var d := printer.indent;
      ghost var l0 := printer.chunks;
      printer.Print(["class Message" + descriptor.name + " extends Message;", ""]);
      PrintConstants(printer);
      PrintVariables(printer);
      printer.Print(["", FunctionsComment]);
      AppendAssoc3(l0, [Chunk(d, [ClassDeclaration(descriptor), ""])], ConstantSection(descriptor.fields, d),
        VariableSection(descriptor.fields, d));
      AppendAssoc(l0, [Chunk(d, [ClassDeclaration(descriptor), ""])] + ConstantSection(descriptor.fields, d)
        + VariableSection(descriptor.fields, d), [Chunk(d, ["", FunctionsComment])]);
    }

    method PrintConstants(printer: Printer)
      modifies printer
      ensures printer.indent == old(printer.indent)
      ensures printer.chunks == old(printer.chunks) + ConstantSection(descriptor.fields, old(printer.indent))
    {
      var fs := descriptor.fields;
      var d := printer.indent;
      printer.Print([ConstantsComment]);
      ghost var l1 := printer.chunks;
      var i := 0;
      while i < |fs|
        invariant 0 <= i <= |fs|
        invariant printer.indent == d
        invariant printer.chunks == l1 + Constants(fs[..i], d)
      {
        PrintConstant(printer, fs[i]);
        ConstantsStep(fs, i, d);
        AppendAssoc(l1, Constants(fs[..i], d), [Chunk(d, [ConstantLine(fs[i])])]);
        i := i + 1;
      }
      assert fs[..i] == fs;
      AppendAssoc(old(printer.chunks), [Chunk(d, [ConstantsComment])], Constants(fs, d));
    }

    method PrintConstant(printer: Printer, f: Field)
      modifies printer
      ensures printer.indent == old(printer.indent)
      ensures printer.chunks == old(printer.chunks) + [Chunk(old(printer.indent), [ConstantLine(f)])]
    {
      var upper := ToUpperCase(f.name);
      printer.Print(["const " + upper + "_FIELD_NUMBER = " + IntToDecimal(f.number) + ";"]);
    }

    method PrintVariables(printer: Printer)
      requires AllSupported(descriptor.fields)
      modifies printer
      ensures printer.indent == old(printer.indent)
      ensures printer.chunks == old(printer.chunks) + VariableSection(descriptor.fields, old(printer.indent))
    {
      var fs := descriptor.fields;
      var d := printer.indent;
      printer.Print(["", VariablesComment]);
      ghost var l1 := printer.chunks;
      var i := 0;
      while i < |fs|
        invariant 0 <= i <= |fs|
        invariant printer.indent == d
        invariant printer.chunks == l1 + Variables(fs[..i], d)
      {
        PrintVariable(printer, fs[i]);
        VariablesStep(fs, i, d);
        AppendAssoc(l1, Variables(fs[..i], d), [Chunk(d, [VariableLine(fs[i])])]);
        i := i + 1;
      }
      assert fs[..i] == fs;
      AppendAssoc(old(printer.chunks), [Chunk(d, ["", VariablesComment])], Variables(fs, d));
    }

    /** The storage member of one field. */
    method PrintVariable(printer: Printer, f: Field)
      requires IsSupported(f.fieldType)
      modifies printer
      ensures printer.indent == old(printer.indent)
      ensures printer.chunks == old(printer.chunks) + [Chunk(old(printer.indent), [VariableLine(f)])]
    {
      var fieldType := if f.fieldType == Message then "Message" + f.typeName
                       else GetPrimitiveTypeName(GetUnrealScriptType(f.fieldType).value);
      if f.repeated {
        printer.Print(["var array<" + fieldType + "> " + SafeFieldname(f.name) + ";"]);
      } else {
        printer.Print(["var " + fieldType + " " + SafeFieldname(f.name) + ";"]);
      }
    }

    method PrintSerialize(printer: Printer)
      requires AllSupported(descriptor.fields)
      modifies printer
      ensures printer.indent == old(printer.indent)
      ensures printer.chunks == old(printer.chunks) + SerializeSection(descriptor.fields, old(printer.indent))
    {
      var fs := descriptor.fields;
      var d := printer.indent;
      ghost var l0 := printer.chunks;
      PrintSerializeHead(printer);
      PrintSerializeBlocks(printer);
      CloseBlock(printer);
      AppendAssoc3(l0, SerializeHead(fs, d), SerializeBlocks(fs, d + 4), [Chunk(d, ["}"])]);
    }

    /** Leaves the printer one level deeper, inside the function body. */
    method PrintSerializeHead(printer: Printer)
      modifies printer
      ensures printer.indent == old(printer.indent) + 4
      ensures printer.chunks == old(printer.chunks) + SerializeHead(descriptor.fields, old(printer.indent))
    {
      printer.Print([SerializeHeader, "{"]);
      printer.Indent();
      printer.Indent();
      var repeated := HasRepeatedField();
      if repeated {
        printer.Print([IndexLocal, ""]);
      }
    }

    /** Two Outdents and the closing brace of the block they end. */
    method CloseBlock(printer: Printer)
      requires printer.indent >= 4
      modifies printer
      ensures printer.indent == old(printer.indent) - 4
      ensures printer.chunks == old(printer.chunks) + [Chunk(old(printer.indent) - 4, ["}"])]
    {
      printer.Outdent();
      printer.Outdent();
      printer.Print(["}"]);
    }

    method PrintSerializeBlocks(printer: Printer)
      requires AllSupported(descriptor.fields)
      modifies printer
      ensures printer.indent == old(printer.indent)
      ensures printer.chunks == old(printer.chunks) + SerializeBlocks(descriptor.fields, old(printer.indent))
    {
      var fs := descriptor.fields;
      var d := printer.indent;
      var i := 0;
      while i < |fs|
        invariant 0 <= i <= |fs|
        invariant printer.indent == d
        invariant printer.chunks == old(printer.chunks) + SerializeBlocks(fs[..i], d)
      {
        PrintSerializeBlock(printer, fs[i]);
        SerializeBlocksStep(fs, i, d);
        AppendAssoc(old(printer.chunks), SerializeBlocks(fs[..i], d), SerializeBlock(fs[i], d));
        i := i + 1;
      }
      assert fs[..i] == fs;
    }

    /** The body of the Serialize loop for one field. */
    method PrintSerializeBlock(printer: Printer, f: Field)
      requires IsSupported(f.fieldType)
      modifies printer
      ensures printer.indent == old(printer.indent)
      ensures printer.chunks == old(printer.chunks) + SerializeBlock(f, old(printer.indent))
    {
      var write := GetSerializeMethodName(f.fieldType).value;
      var constName := ToUpperCase(f.name);
      if f.repeated {
        printer.Print(["", "for (idx = 0; idx < " + SafeFieldname(f.name) + ".Length; idx++)", "{"]);
        printer.Indent();
        printer.Indent();
        printer.Print(["stream." + write + "(" + constName + "_FIELD_NUMBER, " + SafeFieldname(f.name) + "[idx]);"]);
        CloseBlock(printer);
      } else {
        printer.Print(["stream." + write + "(" + constName + "_FIELD_NUMBER, " + SafeFieldname(f.name) + ");"]);
      }
    }

    method PrintDeserialize(printer: Printer)
      requires AllSupported(descriptor.fields)
      modifies printer
      ensures printer.indent == old(printer.indent)
      ensures printer.chunks == old(printer.chunks) + DeserializeSection(descriptor.fields, old(printer.indent))
    {
      var fs := descriptor.fields;
      var d := printer.indent;
      ghost var l0 := printer.chunks;
      PrintDeserializeHead(printer);
      PrintBranches(printer);
      PrintDeserializeTail(printer);
      AppendAssoc3(l0, DeserializeHead(fs, d), Branches(fs, d + 8), DeserializeTail(d));
    }

    /** Ends the loop body with the next ReadTag and closes the loop and the function. */
    method PrintDeserializeTail(printer: Printer)
      requires printer.indent >= 8
      modifies printer
      ensures printer.indent == old(printer.indent) - 8
      ensures printer.chunks == old(printer.chunks) + DeserializeTail(old(printer.indent) - 8)
    {
      printer.Print(["", ReadTag]);
      CloseBlock(printer);
      CloseBlock(printer);
    }

    /** Leaves the printer two levels deeper, inside the dispatch loop. */
    method PrintDeserializeHead(printer: Printer)
      modifies printer
      ensures printer.indent == old(printer.indent) + 8
      ensures printer.chunks == old(printer.chunks) + DeserializeHead(descriptor.fields, old(printer.indent))
    {
      var fs := descriptor.fields;
      printer.Print(["", DeserializeHeader, "{"]);
      printer.Indent();
      printer.Indent();
      if |fs| > 0 {
        printer.Print([TagAndFieldNumberLocals, ""]);
      } else {
        printer.Print([TagLocal, ""]);
      }
      printer.Print([ReadTag, ""]);
      printer.Print([LoopHead, "{"]);
      printer.Indent();
      printer.Indent();
      if |fs| > 0 {
        printer.Print([StoreFieldNumber]);
      } else {
        printer.Print([DiscardFieldNumber]);
      }
    }

    method PrintBranches(printer: Printer)
      requires AllSupported(descriptor.fields)
      modifies printer
      ensures printer.indent == old(printer.indent)
      ensures printer.chunks == old(printer.chunks) + Branches(descriptor.fields, old(printer.indent))
    {
      var fs := descriptor.fields;
      var d := printer.indent;
      var i := 0;
      while i < |fs|
        invariant 0 <= i <= |fs|
        invariant printer.indent == d
        invariant printer.chunks == old(printer.chunks) + Branches(fs[..i], d)
      {
        PrintBranch(printer, fs[i], i == 0);
        BranchesStep(fs, i, d);
        AppendAssoc(old(printer.chunks), Branches(fs[..i], d), Branch(fs[i], i == 0, d));
        i := i + 1;
      }
      assert fs[..i] == fs;
    }

    /** The dispatch branch for one field. */
    method PrintBranch(printer: Printer, f: Field, first: bool)
      requires IsSupported(f.fieldType)
      modifies printer
      ensures printer.indent == old(printer.indent)
      ensures printer.chunks == old(printer.chunks) + Branch(f, first, old(printer.indent))
    {
      var constName := ToUpperCase(f.name);
      printer.Print([(if first then "if" else "else if") + " (fieldNumber == " + constName + "_FIELD_NUMBER)", "{"]);
      printer.Indent();
      printer.Indent();
      PrintDecode(printer, f);
      CloseBlock(printer);
    }

    /** The statement storing the decoded value of one field. */
    method PrintDecode(printer: Printer, f: Field)
      requires IsSupported(f.fieldType)
      modifies printer
      ensures printer.indent == old(printer.indent)
      ensures printer.chunks == old(printer.chunks) + [Chunk(old(printer.indent), [DecodeStatement(f)])]
    {
      var read := GetDeserializeMethodName(f.fieldType).value;
      var name := SafeFieldname(f.name);
      if f.repeated {
        if f.fieldType == Message {
          printer.Print([name + ".AddItem( " + "Message" + f.typeName + "(stream." + read + "(class'" + "Message" + f.typeName + "')) );"]);
        } else {
          printer.Print([name + ".AddItem(stream." + read + "());"]);
        }
      } else {
        if f.fieldType == Message {
          printer.Print([name + " = " + "Message" + f.typeName + "(stream." + read + "(class'" + "Message" + f.typeName + "'));"]);
        } else {
          printer.Print([name + " = stream." + read + "();"]);
        }
      }
    }

    method PrintSerializedSize(printer: Printer)
      requires AllSupported(descriptor.fields)
      modifies printer
      ensures printer.indent == old(printer.indent)
      ensures printer.chunks == old(printer.chunks) + SizeSection(descriptor.fields, old(printer.indent))
    {
      var fs := descriptor.fields;
      var d := printer.indent;
      ghost var l0 := printer.chunks;
      PrintSizeHead(printer);
      PrintSizeBlocks(printer);
      PrintSizeTail(printer);
      AppendAssoc3(l0, SizeHead(fs, d), SizeBlocks(fs, d + 4), SizeTail(d));
    }

    /** Returns the sum and closes the function. */
    method PrintSizeTail(printer: Printer)
      requires printer.indent >= 4
      modifies printer
      ensures printer.indent == old(printer.indent) - 4
      ensures printer.chunks == old(printer.chunks) + SizeTail(old(printer.indent) - 4)
    {
      printer.Print(["", SizeReturn]);
      CloseBlock(printer);
    }

    /** Leaves the printer one level deeper, inside the function body. */
    method PrintSizeHead(printer: Printer)
      modifies printer
      ensures printer.indent == old(printer.indent) + 4
      ensures printer.chunks == old(printer.chunks) + SizeHead(descriptor.fields, old(printer.indent))
    {
      var d := printer.indent;
      ghost var l0 := printer.chunks;
      printer.Print(["", SizeHeader, "{"]);
      printer.Indent();
      printer.Indent();
      printer.Print([SizeLocal]);
      var repeated := HasRepeatedField();
      if repeated {
        printer.Print([IndexLocal]);
      }
      ghost var l1 := printer.chunks;
      assert l1 == l0 + [Chunk(d, ["", SizeHeader, "{"])] + SizeLocals(descriptor.fields, d + 4);
      printer.Print([SizeInit, ""]);
    }

    method PrintSizeBlocks(printer: Printer)
      requires AllSupported(descriptor.fields)
      modifies printer
      ensures printer.indent == old(printer.indent)
      ensures printer.chunks == old(printer.chunks) + SizeBlocks(descriptor.fields, old(printer.indent))
    {
      var fs := descriptor.fields;
      var d := printer.indent;
      var i := 0;
      while i < |fs|
        invariant 0 <= i <= |fs|
        invariant printer.indent == d
        invariant printer.chunks == old(printer.chunks) + SizeBlocks(fs[..i], d)
      {
        PrintSizeBlock(printer, fs[i]);
        SizeBlocksStep(fs, i, d);
        AppendAssoc(old(printer.chunks), SizeBlocks(fs[..i], d), SizeBlock(fs[i], d));
        i := i + 1;
      }
      assert fs[..i] == fs;
    }

    /** The body of the GetSerializedSize loop for one field. */
    method PrintSizeBlock(printer: Printer, f: Field)
      requires IsSupported(f.fieldType)
      modifies printer
      ensures printer.indent == old(printer.indent)
      ensures printer.chunks == old(printer.chunks) + SizeBlock(f, old(printer.indent))
    {
      var compute := GetComputeSizeMethodName(f.fieldType).value;
      var constName := ToUpperCase(f.name);
      if f.repeated {
        printer.Print(["", "for (idx = 0; idx < " + f.name + ".Length; idx++)", "{"]);
        printer.Indent();
        printer.Indent();
        printer.Print([SizeCall + compute + "(" + constName + "_FIELD_NUMBER, " + SafeFieldname(f.name) + "[idx]);"]);
      } else {
        printer.Print([SizeCall + compute + "(" + constName + "_FIELD_NUMBER, " + SafeFieldname(f.name) + ");"]);
      }
      if f.repeated {
        CloseBlock(printer);
      }
    }

    method PrintDefaultProperties(printer: Printer)
      modifies printer
      ensures printer.indent == old(printer.indent)
      ensures printer.chunks == old(printer.chunks) + DefaultPropertiesSection(descriptor, old(printer.indent))
    {
      printer.Print(["", DefaultPropertiesHeader, "{"]);
      printer.Indent();
      printer.Indent();
      printer.Print(["_id = \"" + descriptor.name + "\";"]);
      CloseBlock(printer);
    }
  }
}
