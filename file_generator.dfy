/**
 * The file-level emitter (us_file.cc): checks that the outer class name
 * does not collide with a top-level type, then writes one sibling unit per
 * top-level message and records its filename.
 */
module FileGen {
  import opened StrUtil
  import opened Descriptor
  import opened Naming
  import opened Printing
  import opened MessageGen
  import MessageNesting
  import MessageProps

  /** A file written through the generator context, with the lines printed into it. */
  datatype OutputFile = OutputFile(name: string, lines: seq<Line>)

  /** The generator context, reduced to the files written so far, in order. */
  class GeneratorContext {
    var files: seq<OutputFile>

    constructor ()
      ensures files == []
    {
      files := [];
    }

    method Write(name: string, lines: seq<Line>)
      modifies this
      ensures files == old(files) + [OutputFile(name, lines)]
    {
      files := files + [OutputFile(name, lines)];
    }
  }

  // ---------------------------------------------------------------------
  // Validation
  // ---------------------------------------------------------------------

  /** Some top-level enum, message or service carries the outer class name. */
  predicate Conflicts(file: FileDescriptor, classname: string)
  {
    (exists i :: 0 <= i < |file.enumTypes| && file.enumTypes[i].name == classname)
    || (exists i :: 0 <= i < |file.messageTypes| && file.messageTypes[i].name == classname)
    || (exists i :: 0 <= i < |file.services| && file.services[i].name == classname)
  }

  const ConflictLead: string := ": Cannot generate Java output because the file's outer class name, \""
  const ConflictTrail: string := "\", matches the name of one of the types declared inside it.  Please either rename the type or use the java_outer_classname option to specify a different outer class name for the .proto file."

  function ConflictMessage(fileName: string, classname: string): string
  {
    fileName + ConflictLead + classname + ConflictTrail
  }

  // ---------------------------------------------------------------------
  // Sibling units
  // ---------------------------------------------------------------------

  function SiblingFileName(packageDir: string, m: MessageType, nameSuffix: string): string
  {
    packageDir + "Message" + m.name + nameSuffix + ".uc"
  }

  const HeaderComment: string := "// Generated by the protocol buffer compiler.  DO NOT EDIT!"

  /** The Print calls made for one sibling unit: the header, then the message class. */
  function UnitChunks(m: MessageType): seq<Chunk>
    requires AllSupported(m.fields)
  {
    [Chunk(0, [HeaderComment, ""])] + MessageChunks(m, 0)
  }

  /** Everything written to one sibling unit, line by line. */
  function UnitLines(m: MessageType): seq<Line>
    requires AllSupported(m.fields)
  {
    Lines(UnitChunks(m))
  }

  predicate AllMessagesSupported(ms: seq<MessageType>)
  {
    forall i :: 0 <= i < |ms| ==> AllSupported(ms[i].fields)
  }

  /** The filenames Generate records, in declaration order. */
  function SiblingNames(ms: seq<MessageType>, packageDir: string): seq<string>
  {
    if |ms| == 0 then [] else SiblingNames(ms[..|ms| - 1], packageDir) + [SiblingFileName(packageDir, ms[|ms| - 1], "")]
  }

  /** The units Generate writes, in declaration order. */
  function Units(ms: seq<MessageType>, packageDir: string): seq<OutputFile>
    requires AllMessagesSupported(ms)
  {
    if |ms| == 0 then []
    else
      var m := ms[|ms| - 1];
      Units(ms[..|ms| - 1], packageDir) + [OutputFile(SiblingFileName(packageDir, m, ""), UnitLines(m))]
  }

  /** Writes one unit for descriptor and appends its filename to fileList. */
  method GenerateSibling(packageDir: string, javaPackage: string, descriptor: MessageType,
                         context: GeneratorContext, fileList: seq<string>, nameSuffix: string)
    returns (fileList': seq<string>)
    requires AllSupported(descriptor.fields)
    modifies context
    ensures fileList' == fileList + [SiblingFileName(packageDir, descriptor, nameSuffix)]
    ensures context.files == old(context.files)
      + [OutputFile(SiblingFileName(packageDir, descriptor, nameSuffix), UnitLines(descriptor))]
  {
    var filename := packageDir + "Message" + descriptor.name + nameSuffix + ".uc";
    fileList' := fileList + [filename];
    var printer := new Printer();
    printer.Print(["// Generated by the protocol buffer compiler.  DO NOT EDIT!", ""]);
    var generator := new MessageGenerator(descriptor);
    generator.Generate(printer);
    assert printer.chunks == UnitChunks(descriptor);
    context.Write(filename, Lines(printer.chunks));
  }

  lemma UnitsStep(ms: seq<MessageType>, i: nat, packageDir: string)
    requires AllMessagesSupported(ms) && i < |ms|
    ensures Units(ms[..i + 1], packageDir)
      == Units(ms[..i], packageDir) + [OutputFile(SiblingFileName(packageDir, ms[i], ""), UnitLines(ms[i]))]
    ensures SiblingNames(ms[..i + 1], packageDir)
      == SiblingNames(ms[..i], packageDir) + [SiblingFileName(packageDir, ms[i], "")]
  {
    assert ms[..i + 1][..i] == ms[..i];
  }

  class FileGenerator {
    const file: FileDescriptor
    const javaPackage: string
    const classname: string

    /** The outer class name is derived once, here. */
    constructor (file: FileDescriptor)
      ensures this.file == file
      ensures javaPackage == FileJavaPackage(file)
      ensures classname == FileClassName(file)
    {
      this.file := file;
      javaPackage := FileJavaPackage(file);
      classname := FileClassName(file);
    }

    /** Reports a collision between the outer class name and a top-level type; error is written only then. */
    method Validate(error: string) returns (ok: bool, error': string)
      ensures ok <==> !Conflicts(file, classname)
      ensures ok ==> error' == error
      ensures !ok ==> error' == ConflictMessage(file.name, classname)
    {
      var foundConflict := false;
      var i := 0;
      while i < |file.enumTypes| && !foundConflict
        invariant 0 <= i <= |file.enumTypes|
        invariant foundConflict <==> exists j :: 0 <= j < i && file.enumTypes[j].name == classname
      {
        if file.enumTypes[i].name == classname {
          foundConflict := true;
        }
        i := i + 1;
      }
      i := 0;
      while i < |file.messageTypes| && !foundConflict
        invariant 0 <= i <= |file.messageTypes|
        invariant foundConflict <==>
          (exists j :: 0 <= j < |file.enumTypes| && file.enumTypes[j].name == classname)
          || (exists j :: 0 <= j < i && file.messageTypes[j].name == classname)
      {
        if file.messageTypes[i].name == classname {
          foundConflict := true;
        }
        i := i + 1;
      }
      i := 0;
      while i < |file.services| && !foundConflict
        invariant 0 <= i <= |file.services|
        invariant foundConflict <==>
          (exists j :: 0 <= j < |file.enumTypes| && file.enumTypes[j].name == classname)
          || (exists j :: 0 <= j < |file.messageTypes| && file.messageTypes[j].name == classname)
          || (exists j :: 0 <= j < i && file.services[j].name == classname)
      {
        if file.services[i].name == classname {
          foundConflict := true;
        }
        i := i + 1;
      }
      if foundConflict {
        error' := file.name;
        error' := error' + ConflictLead;
        error' := error' + classname;
        error' := error' + ConflictTrail;
        return false, error';
      }
      return true, error;
    }

    /** One unit per top-level message, in declaration order; nested messages get none. */
    method Generate(packageDir: string, context: GeneratorContext, fileList: seq<string>)
      returns (fileList': seq<string>)
      requires AllMessagesSupported(file.messageTypes)
      modifies context
      ensures fileList' == fileList + SiblingNames(file.messageTypes, packageDir)
      ensures context.files == old(context.files) + Units(file.messageTypes, packageDir)
    {
      var ms := file.messageTypes;
      fileList' := fileList;
      var i := 0;
      while i < |ms|
        invariant 0 <= i <= |ms|
        invariant fileList' == fileList + SiblingNames(ms[..i], packageDir)
        invariant context.files == old(context.files) + Units(ms[..i], packageDir)
      {
        fileList' := GenerateSibling(packageDir, javaPackage, ms[i], context, fileList', "");
        UnitsStep(ms, i, packageDir);
        AppendAssoc(old(context.files), Units(ms[..i], packageDir), [OutputFile(SiblingFileName(packageDir, ms[i], ""), UnitLines(ms[i]))]);
        AppendAssoc(fileList, SiblingNames(ms[..i], packageDir), [SiblingFileName(packageDir, ms[i], "")]);
        i := i + 1;
      }
      assert ms[..i] == ms;
    }
  }

  // ---------------------------------------------------------------------
  // Properties
  // ---------------------------------------------------------------------

  /** Validation compares top-level names only: replacing a message's nested types never changes it. */
  lemma NestedTypesNotCompared(file: FileDescriptor, classname: string, i: nat, nested: seq<MessageType>)
    requires i < |file.messageTypes|
    ensures var other := file.(messageTypes := file.messageTypes[i := file.messageTypes[i].(nestedTypes := nested)]);
      Conflicts(other, classname) == Conflicts(file, classname)
  {
    var other := file.(messageTypes := file.messageTypes[i := file.messageTypes[i].(nestedTypes := nested)]);
    assert forall j :: 0 <= j < |file.messageTypes| ==> other.messageTypes[j].name == file.messageTypes[j].name;
  }

  /**
   * The error text is the file name, the fixed lead-in, the outer class
   * name and the fixed advice, each found at its own offset.
   */
  lemma ConflictMessageNamesFile(fileName: string, classname: string)
    ensures var e := ConflictMessage(fileName, classname);
      var k := |fileName| + |ConflictLead|;
      |e| == k + |classname| + |ConflictTrail|
      && e[..|fileName|] == fileName
      && e[|fileName|..k] == ConflictLead
      && e[k..k + |classname|] == classname
      && e[k + |classname|..] == ConflictTrail
  {
    var lead := fileName + ConflictLead;
    var e := ConflictMessage(fileName, classname);
    assert e == lead + classname + ConflictTrail;
    assert e[..|lead|] == lead;
    assert lead[..|fileName|] == fileName;
    assert lead[|fileName|..] == ConflictLead;
  }

  /** A sibling unit without a name suffix is named by the package directory, "Message", the message name and ".uc". */
  lemma PlainSiblingFileName(packageDir: string, m: MessageType)
    ensures SiblingFileName(packageDir, m, "") == packageDir + "Message" + m.name + ".uc"
  {
    assert packageDir + "Message" + m.name + "" == packageDir + "Message" + m.name;
  }

  /** Each recorded filename is the package directory, "Message", the message name and ".uc". */
  lemma {:induction false} SiblingNamesAt(ms: seq<MessageType>, packageDir: string)
    ensures |SiblingNames(ms, packageDir)| == |ms|
    ensures forall i :: 0 <= i < |ms| ==> SiblingNames(ms, packageDir)[i] == packageDir + "Message" + ms[i].name + ".uc"
  {
    if |ms| > 0 {
      var init := ms[..|ms| - 1];
      SiblingNamesAt(init, packageDir);
      var ns, n := SiblingNames(init, packageDir), SiblingFileName(packageDir, ms[|ms| - 1], "");
      assert SiblingNames(ms, packageDir) == ns + [n];
      PlainSiblingFileName(packageDir, ms[|ms| - 1]);
      forall i | 0 <= i < |ms|
        ensures (ns + [n])[i] == packageDir + "Message" + ms[i].name + ".uc"
      {
        if i < |init| {
          assert init[i] == ms[i] && (ns + [n])[i] == ns[i];
        }
      }
    }
  }

  lemma {:induction false} UnitsAt(ms: seq<MessageType>, packageDir: string)
    requires AllMessagesSupported(ms)
    ensures |Units(ms, packageDir)| == |ms|
    ensures forall i :: 0 <= i < |ms| ==>
      Units(ms, packageDir)[i] == OutputFile(SiblingFileName(packageDir, ms[i], ""), UnitLines(ms[i]))
  {
    if |ms| > 0 {
      var init := ms[..|ms| - 1];
      var m := ms[|ms| - 1];
      UnitsAt(init, packageDir);
      var us, x := Units(init, packageDir), OutputFile(SiblingFileName(packageDir, m, ""), UnitLines(m));
      assert Units(ms, packageDir) == us + [x];
      forall i | 0 <= i < |ms|
        ensures (us + [x])[i] == OutputFile(SiblingFileName(packageDir, ms[i], ""), UnitLines(ms[i]))
      {
        if i < |init| {
          assert init[i] == ms[i] && (us + [x])[i] == us[i];
        }
      }
    }
  }

  /** The units are written under the recorded names, in the same order. */
  lemma UnitsMatchNames(ms: seq<MessageType>, packageDir: string)
    requires AllMessagesSupported(ms)
    ensures |Units(ms, packageDir)| == |SiblingNames(ms, packageDir)| == |ms|
    ensures forall i :: 0 <= i < |ms| ==>
      Units(ms, packageDir)[i] == OutputFile(SiblingNames(ms, packageDir)[i], UnitLines(ms[i]))
  {
    UnitsAt(ms, packageDir);
    SiblingNamesAt(ms, packageDir);
    forall i | 0 <= i < |ms|
      ensures SiblingFileName(packageDir, ms[i], "") == SiblingNames(ms, packageDir)[i]
    {
      PlainSiblingFileName(packageDir, ms[i]);
    }
  }

  /**
   * A unit opens with the do-not-edit header and a blank line, then the
   * class declaration, and its braces and indentation nest from column 0.
   */
  lemma UnitShape(m: MessageType)
    requires AllSupported(m.fields)
    ensures var u := UnitLines(m);
      |u| >= 3
      && u[0] == Line(0, HeaderComment)
      && u[1] == Line(0, "")
      && u[2] == Line(0, ClassDeclaration(m))
      && u[2..] == Lines(MessageChunks(m, 0))
      && MessageNesting.NestsTo(u, 0, 0, 0)
  {
    var header := [Chunk(0, [HeaderComment, ""])];
    var h, body := Lines(header), Lines(MessageChunks(m, 0));
    LinesAppend(header, MessageChunks(m, 0));
    LinesOne(header[0]);
    TextLinesTwo(0, HeaderComment, "");
    UnitNests(m);
    MessageProps.FirstAndLastLines(m, 0);
    assert (h + body)[2..] == body;
  }

  lemma UnitNests(m: MessageType)
    requires AllSupported(m.fields)
    ensures MessageNesting.NestsTo(UnitLines(m), 0, 0, 0)
  {
    var header := [Chunk(0, [HeaderComment, ""])];
    MessageNesting.MessageNests(m, 0);
    MessageNesting.PlainChunk(header[0], 0, 0);
    MessageNesting.NestsJoin(header, MessageChunks(m, 0), 0, 0, 0, 0);
  }
}
