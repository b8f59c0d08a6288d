/**
 * The code generator's entry point (us_generator.cc): reads the generator
 * options, validates the file, writes one unit per top-level message and,
 * when asked, a list of the written filenames.
 */
module Driver {
  import opened Wrappers
  import opened Descriptor
  import opened Naming
  import opened Printing
  import opened FileGen

  /** The only option the generator understands. */
  const OutputListKey: string := "output_list_file"

  const UnknownOptionLead: string := "Unknown generator option: "

  /**
   * The option scan, as a function of the (key, value) pairs in order: the
   * first key other than output_list_file is an error; otherwise the value
   * of the last output_list_file, or "" when there is none.
   */
  function ScanOptions(options: seq<(string, string)>): Result<string, string>
  {
    if |options| == 0 then Ok("")
    else
      match ScanOptions(options[..|options| - 1])
      case Err(key) => Err(key)
      case Ok(_) =>
        var (key, value) := options[|options| - 1];
        if key == OutputListKey then Ok(value) else Err(key)
  }

  /** The Print calls that list the filenames: one per name, at column 0. */
  function FileListChunks(names: seq<string>): seq<Chunk>
  {
    if |names| == 0 then [] else FileListChunks(names[..|names| - 1]) + [Chunk(0, [names[|names| - 1]])]
  }

  /** The list file written when its name is non-empty. */
  function Manifest(listFile: string, names: seq<string>): seq<OutputFile>
  {
    if listFile == "" then [] else [OutputFile(listFile, Lines(FileListChunks(names)))]
  }

  /**
   * Generates the units of file. options stands for the already parsed
   * parameter string; error is the caller's error string and error' its
   * value afterwards. The fatal abort on an unsupported field type is a
   * precondition: it cannot be reached once the options and the file pass.
   */
  method Generate(file: FileDescriptor, options: seq<(string, string)>, context: GeneratorContext, error: string)
    returns (ok: bool, error': string)
    requires ScanOptions(options).Ok? && !Conflicts(file, FileClassName(file))
      ==> AllMessagesSupported(file.messageTypes)
    modifies context
    ensures ok <==> ScanOptions(options).Ok? && !Conflicts(file, FileClassName(file))
    ensures ScanOptions(options).Err? ==>
      error' == UnknownOptionLead + ScanOptions(options).error && context.files == old(context.files)
    ensures ScanOptions(options).Ok? && Conflicts(file, FileClassName(file)) ==>
      error' == ConflictMessage(file.name, FileClassName(file)) && context.files == old(context.files)
    ensures ok ==> (error' == error
      && context.files == old(context.files) + Units(file.messageTypes, "")
        + Manifest(ScanOptions(options).value, SiblingNames(file.messageTypes, "")))
  {
    var outputListFile := "";
    var i := 0;
    while i < |options|
      invariant 0 <= i <= |options|
      invariant ScanOptions(options[..i]) == Ok(outputListFile)
    {
      assert options[..i + 1][..i] == options[..i];
      if options[i].0 == OutputListKey {
        outputListFile := options[i].1;
      } else {
        ScanErrorPersists(options, i + 1);
        return false, UnknownOptionLead + options[i].0;
      }
      i := i + 1;
    }
    assert options[..i] == options;

    var fileGenerator := new FileGenerator(file);
    var valid;
    valid, error' := fileGenerator.Validate(error);
    if !valid {
      return false, error';
    }

    ghost var written := context.files;
    var allFiles := fileGenerator.Generate("", context, []);
    assert allFiles == SiblingNames(file.messageTypes, "");

    if outputListFile != "" {
      var lines := PrintFileList(allFiles);
      context.Write(outputListFile, lines);
      assert Manifest(outputListFile, allFiles) == [OutputFile(outputListFile, lines)];
    } else {
      assert context.files == written + Units(file.messageTypes, "") + Manifest(outputListFile, allFiles);
    }
    return true, error';
  }

  /** Prints each filename on its own line through a fresh printer. */
  method PrintFileList(allFiles: seq<string>) returns (lines: seq<Line>)
    ensures lines == Lines(FileListChunks(allFiles))
  {
    var printer := new Printer();
    var i := 0;
    while i < |allFiles|
      invariant 0 <= i <= |allFiles|
      invariant printer.indent == 0
      invariant printer.chunks == FileListChunks(allFiles[..i])
    {
      printer.Print([allFiles[i]]);
      assert allFiles[..i + 1][..i] == allFiles[..i];
      i := i + 1;
    }
    assert allFiles[..i] == allFiles;
    lines := Lines(printer.chunks);
  }

  // ---------------------------------------------------------------------
  // Properties
  // ---------------------------------------------------------------------

  /** Once the scan of a prefix fails, the scan of any longer prefix fails with the same key. */
  lemma {:induction false} ScanErrorPersists(options: seq<(string, string)>, n: nat)
    requires n <= |options|
    requires ScanOptions(options[..n]).Err?
    ensures ScanOptions(options).Err?
    ensures ScanOptions(options).error == ScanOptions(options[..n]).error
    decreases |options| - n
  {
    if n < |options| {
      assert options[..n + 1][..n] == options[..n];
      ScanErrorPersists(options, n + 1);
    } else {
      assert options[..n] == options;
    }
  }

  /**
   * The scan succeeds exactly when every key is output_list_file, and then
   * yields the last value given (the default "" when there are none).
   */
  lemma {:induction false} ScanSucceedsIffAllKnown(options: seq<(string, string)>)
    ensures ScanOptions(options).Ok? <==> forall i :: 0 <= i < |options| ==> options[i].0 == OutputListKey
    ensures ScanOptions(options).Ok? ==>
      ScanOptions(options).value == (if |options| == 0 then "" else options[|options| - 1].1)
  {
    if |options| > 0 {
      var init := options[..|options| - 1];
      ScanSucceedsIffAllKnown(init);
      assert forall i :: 0 <= i < |init| ==> init[i] == options[i];
    }
  }

  /** A failed scan names the first key other than output_list_file. */
  lemma {:induction false} UnknownOptionIsFirst(options: seq<(string, string)>)
    requires ScanOptions(options).Err?
    ensures exists i :: (0 <= i < |options|
      && options[i].0 != OutputListKey
      && ScanOptions(options).error == options[i].0
      && forall j :: 0 <= j < i ==> options[j].0 == OutputListKey)
  {
    var init := options[..|options| - 1];
    assert forall j :: 0 <= j < |init| ==> init[j] == options[j];
    if ScanOptions(init).Err? {
      UnknownOptionIsFirst(init);
      var i :| 0 <= i < |init| && init[i].0 != OutputListKey && ScanOptions(init).error == init[i].0
        && forall j :: 0 <= j < i ==> init[j].0 == OutputListKey;
      assert options[i] == init[i];
    } else {
      ScanSucceedsIffAllKnown(init);
      var i := |options| - 1;
      assert forall j :: 0 <= j < i ==> options[j].0 == OutputListKey;
    }
  }

  /**
   * The list file names every unit, in order, one per line at column 0, as
   * "Message" + the message name + ".uc" (the package directory is empty).
   */
  lemma ManifestListsUnits(listFile: string, ms: seq<MessageType>)
    requires listFile != ""
    ensures var out := Manifest(listFile, SiblingNames(ms, ""));
      |out| == 1 && out[0].name == listFile && |out[0].lines| == |ms|
      && forall i :: 0 <= i < |ms| ==> out[0].lines[i] == Line(0, "Message" + ms[i].name + ".uc")
  {
    var names := SiblingNames(ms, "");
    SiblingNamesAt(ms, "");
    FileListLines(names);
    forall i | 0 <= i < |ms|
      ensures names[i] == "Message" + ms[i].name + ".uc"
    {
      assert "" + "Message" + ms[i].name + ".uc" == "Message" + ms[i].name + ".uc";
    }
  }

  /** The list file holds one line per name, in order, each at column 0. */
  lemma FileListLines(names: seq<string>)
    ensures |Lines(FileListChunks(names))| == |names|
    ensures forall i :: 0 <= i < |names| ==> Lines(FileListChunks(names))[i] == Line(0, names[i])
  {
    FileListChunksAt(names);
    LinesOfSingles(FileListChunks(names));
  }

  lemma {:induction false} FileListChunksAt(names: seq<string>)
    ensures |FileListChunks(names)| == |names|
    ensures forall i :: 0 <= i < |names| ==> FileListChunks(names)[i] == Chunk(0, [names[i]])
  {
    if |names| > 0 {
      var init := names[..|names| - 1];
      FileListChunksAt(init);
      var a, x := FileListChunks(init), Chunk(0, [names[|names| - 1]]);
      assert FileListChunks(names) == a + [x];
      forall i | 0 <= i < |names|
        ensures (a + [x])[i] == Chunk(0, [names[i]])
      {
        if i < |init| {
          assert init[i] == names[i] && (a + [x])[i] == a[i];
        }
      }
    }
  }

  /** A successful run writes one unit per top-level message, plus the list file when one is named. */
  lemma OutputCount(ms: seq<MessageType>, listFile: string)
    requires AllMessagesSupported(ms)
    ensures |Units(ms, "") + Manifest(listFile, SiblingNames(ms, ""))| == |ms| + (if listFile == "" then 0 else 1)
  {
    UnitsMatchNames(ms, "");
  }
}
