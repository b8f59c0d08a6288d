# protobuf-unrealscript generator, modelled in Dafny

This project models the core of the protocol buffer compiler plugin that
emits UnrealScript classes. For each top-level message of a `.proto` file it
writes one `Message<Name>.uc` unit. The unit holds the field-number
constants, one storage member per field, and three generated functions:
`Serialize`, a tag-dispatch `Deserialize` loop and `GetSerializedSize`.
It ends with a `defaultproperties` block naming the message.

The model has these parts:

- **Descriptors** (`descriptor.dfy`). The schema tree as plain datatypes: the 18 field
  types, `Field`, `MessageType` and `FileDescriptor` with its options.
- **Helpers** (`naming.dfy`, `type_tables.dfy`, `defaults.dfy`, `option_predicates.dfy`). These model
  `us_helpers.cc`/`us_helpers.h`:
  - snake_case to camelCase, proto-name stripping, and package and directory derivation;
  - the type-to-category and type-to-method-name switches;
  - the integer, bool, string and bytes default-value formatting;
  - the file-option predicates.
- **Printer** (`printer.dfy`). A `Printer` class stands in for `io::Printer`.
  - It keeps the sequence of `Print` calls as chunks, each made of the indentation in effect and the texts printed.
  - `Indent` and `Outdent` move the indentation by two spaces.
  - `Lines` flattens the chunks into the emitted lines.
- **Message emitter** (`message.dfy`).
  - `MessageGenerator` prints through the printer with the same calls, loops and branches as `us_message.cc`.
  - Every printing method is proved to append exactly the chunks that a section function of the fields describes.
  - `message_props.dfy` and `nesting.dfy` prove what those sections contain:
    - one constant, storage member, write call, decode branch and size term per field, in declaration order;
    - where the loop index and `fieldNumber` are declared;
    - that braces and indentation nest back to the starting level.
- **File emitter** (`file_generator.dfy`).
  - `FileGenerator.Validate` runs the three collision loops.
  - `GenerateSibling` and `Generate` write one unit per top-level message into an in-memory `GeneratorContext`.
  - They also append the unit filenames to the caller's list.
- **Driver** (`generator.dfy`). `Generate` runs the option loop, then validation, then the siblings, then the
  optional list file.

The size loop of a repeated field bounds its index by the raw field name,
while the element access uses the escaped name (a field called `name` is
stored as `_name`). The model reproduces this: `MessageProps.SizeLoopUsesRawName`
states exactly when the two loop headers differ.

## Model

| member | source | states |
|---|---|---|
| Naming.UnderscoresToCamelCaseImpl | compiler/us/us_helpers.cc:68-97 | the loop's result equals the specification `CamelCase(input, capNextLetter)` |
| Naming.CamelCase | compiler/us/us_helpers.cc:68-97 | the result holds only ASCII letters and digits, is never longer than the input, and is empty for empty input |
| Naming.CamelStateIsPieces | compiler/us/us_helpers.cc:72-94 | the loop's text after n characters is the concatenation of independent per-character pieces, and its capitalise flag is set exactly when the previous character was not a letter |
| Naming.CamelCaseIsPieces | compiler/us/us_helpers.cc:68-97 | camel-casing the whole input is the concatenation of the per-character pieces |
| Naming.CamelCaseExample | compiler/us/us_helpers.cc:68-97 | "foo_bar" becomes "fooBar" with cap=false |
| Naming.CapitalizedCamelCaseExample | compiler/us/us_helpers.cc:68-97 | "foo_bar" becomes "FooBar" with cap=true |
| Naming.CamelCaseThreeWordsExample | compiler/us/us_helpers.cc:68-97 | "foo_bar_baz" becomes "fooBarBaz" with cap=false |
| Naming.CapitalizedThreeWordsExample | compiler/us/us_helpers.cc:68-97 | "foo_bar_baz" becomes "FooBarBaz" with cap=true |
| Naming.CamelCaseAcronymExample | compiler/us/us_helpers.cc:80-84 | "HTMLFile" becomes "hTMLFile" with cap=false: only the first capital is lowered |
| Naming.CamelCaseKeepsLaterCapitals | compiler/us/us_helpers.cc:80-84 | a capital at index 0 is lowered when cap is false; later capitals are copied unchanged ("FooBar" becomes "fooBar") |
| Naming.CamelStateOnIdentifier | compiler/us/us_helpers.cc:72-94 | on an already camel-cased identifier every prefix scan returns that prefix |
| Naming.CamelCaseFixpoint | compiler/us/us_helpers.cc:68-97 | a camel-cased identifier is left unchanged |
| Naming.CapitalizedStateIsIdentifier | compiler/us/us_helpers.cc:72-94 | with cap=true the scan always produces a capitalised camel identifier |
| Naming.CapitalizedCamelCaseIdempotent | compiler/us/us_helpers.cc:68-97 | applying the capitalised conversion twice gives the same result as once |
| Naming.CapFirstStates | compiler/us/us_helpers.cc:72-94 | the cap flag changes only the first output character and never the length |
| Naming.CapitalizationOnlyAffectsFirst | compiler/us/us_helpers.cc:68-97 | the cap=true and cap=false results agree in length and after the first character |
| Naming.UnderscoresToCamelCase | compiler/us/us_helpers.cc:57-66 | a field is camel-cased (cap=false) by its name, or by its type name for a group |
| Naming.UnderscoresToCapitalizedCamelCase | compiler/us/us_helpers.cc:105-107 | as above with cap=true |
| Naming.UnderscoresToCamelCaseMethod | compiler/us/us_helpers.cc:109-111 | a method name is camel-cased with cap=false |
| Naming.StripProto | compiler/us/us_helpers.cc:113-119 | a trailing ".protodevel" is removed if present, else a trailing ".proto", else nothing |
| Naming.StripProtoRoundTrip | compiler/us/us_helpers.cc:113-119 | stripping stem + ".proto" or stem + ".protodevel" gives the stem back |
| Naming.BasenameIsLastComponent | compiler/us/us_helpers.cc:124-129 | the text after the last '/' has no '/', is a suffix of the path, and is preceded by '/' when shorter than the path |
| Naming.BasenameAfterSlash | compiler/us/us_helpers.cc:124-129 | the basename of dir + "/" + q is q when q has no '/' |
| Naming.BasenameWithoutSlash | compiler/us/us_helpers.cc:124-129 | a path without '/' is its own basename |
| Naming.FileClassName | compiler/us/us_helpers.cc:121-134 | a set java_outer_classname option is returned verbatim |
| Naming.FileClassNameFromPath | compiler/us/us_helpers.cc:121-134 | without the option, the class name is the capitalised camel case of the file's basename with the proto suffix stripped |
| Naming.FileJavaPackage | compiler/us/us_helpers.cc:136-151 | the java_package option if set, else the proto package |
| Naming.JavaPackageToDir | compiler/us/us_helpers.cc:153-158 | every '.' becomes '/', nothing else changes, and a '/' is appended iff the package is non-empty |
| Naming.JavaPackageToDirJoin | compiler/us/us_helpers.cc:153-158 | the directory of p.q is the directory of p followed by that of q |
| Naming.ToJavaName | compiler/us/us_helpers.cc:160-178 | the result ends with the full name minus the proto package and its dot (the whole name when the package is empty) |
| Naming.ToJavaNameStripsPackage | compiler/us/us_helpers.cc:160-178 | for any rest, dots included, package + "." + rest becomes the Java package (multiple files) or the outer class name, a '.' only after a non-empty qualifier, then rest |
| Naming.ClassName | compiler/us/us_helpers.cc:180-185 | the outer class name, qualified by the Java package and a '.' exactly when the package is non-empty |
| Naming.TopLevelClassName | compiler/us/us_helpers.h:85-96 | the name of a top-level declaration is qualified by the Java package when java_multiple_files is set and by the file's outer class name otherwise, with a '.' only after a non-empty qualifier |
| Naming.FieldConstantName | compiler/us/us_helpers.cc:187-191 | the upper-cased field name followed by "_FIELD_NUMBER" |
| Naming.ToUpperCase | compiler/us/us_helpers.cc:197-203 | the loop upper-cases every character in place, keeping the length |
| Naming.SafeFieldname | compiler/us/us_helpers.cc:205-210 | the result is never "name", and it is the input unless the input is "name" |
| Naming.SafeFieldnameCollision | compiler/us/us_helpers.cc:205-210 | two names escape to the same identifier iff they are equal or are "name" and "_name" |
| StrUtil.UpperString | compiler/us/us_helpers.cc:197-203 | same length, each character mapped by ASCII toupper |
| StrUtil.UpperStringFixpoint | compiler/us/us_helpers.cc:187-191 | upper-casing leaves a string unchanged iff it has no lower-case letter |
| StrUtil.NatToDecimalRoundTrip | compiler/us/us_message.cc:109-113 | the decimal text of a field number reads back as that number |
| StrUtil.IntToDecimalRoundTrip | compiler/us/us_helpers.cc:353-357 | the decimal text of any integer, negative ones included, parses back to that integer |
| StrUtil.IntToDecimalInjective | compiler/us/us_message.cc:109-113 | distinct numbers have distinct decimal texts |
| TypeTables.GetUnrealScriptType | compiler/us/us_helpers.cc:212-237 | a category exists exactly for the nine supported types; the others are the fatal case |
| TypeTables.UnrealScriptTypeCategories | compiler/us/us_helpers.cc:212-237 | the 32-bit integer types map to INT; STRING, BOOL, MESSAGE and BYTES map to their own categories |
| TypeTables.EveryCategoryReached | compiler/us/us_helpers.h:108-114 | each of the five categories is the category of some field type |
| TypeTables.TypeLabelRoundTrip | compiler/us/us_helpers.cc:239-264 | every type's label reads back as that type |
| TypeTables.TypeLabelInjective | compiler/us/us_helpers.cc:239-264 | the labels of distinct types differ |
| TypeTables.DeserializeNameHasStem | compiler/us/us_helpers.cc:266-285 | a Read method exists exactly for the supported types, named "Read" + the type's stem |
| TypeTables.SerializeNameHasStem | compiler/us/us_helpers.cc:287-304 | a Write method exists exactly for the supported types, named "Write" + the same stem |
| TypeTables.ComputeSizeNameHasStem | compiler/us/us_helpers.cc:306-322 | a size method exists exactly for the supported types, named "Compute" + the same stem + "Size" |
| TypeTables.StorageTypeName | compiler/us/us_message.cc:118-133 | a message field is stored as "Message" + its type name; any other supported field as one of "int", "string", "bool" or "Array<byte>" |
| TypeTables.GetPrimitiveTypeName | compiler/us/us_helpers.cc:324-338 | the placeholder "NULL" is returned exactly for the MESSAGE category |
| TypeTables.PrimitiveTypeNamesDistinct | compiler/us/us_helpers.cc:324-338 | the five categories have distinct spellings |
| TypeTables.StorageTypeNameByType | compiler/us/us_message.cc:118-133 | a field is stored as "int" iff it is a 32-bit integer, "string" iff a string, "bool" iff a bool, "Array<byte>" iff bytes, and never as "NULL" |
| Defaults.AllAscii | compiler/us/us_helpers.cc:340-347 | the early-return loop answers true iff no byte has bit 0x80 set |
| Defaults.DefaultValue | compiler/us/us_helpers.cc:349-409 | the literal is non-empty and ends in the long suffix L exactly for the 64-bit integer types |
| Defaults.IsDefaultValueJavaDefault | compiler/us/us_helpers.cc:426-456 | only integer and bool fields can have the Java default, and such a field without a declared default always has it |
| Defaults.UInt32AsInt32 | compiler/us/us_helpers.cc:355-357 | the unsigned value reinterpreted as signed 32-bit: in range, congruent modulo 2^32, unchanged below 2^31 |
| Defaults.UInt64AsInt64 | compiler/us/us_helpers.cc:360-362 | the same for 64 bits |
| Defaults.Int32DefaultText | compiler/us/us_helpers.cc:353-357 | an int32 default prints as its value; a uint32 default prints as the signed int32 with the same bits |
| Defaults.StringDefaultText | compiler/us/us_helpers.cc:399-409 | a string default is a quoted escaped literal iff it is all ASCII, else a stringDefaultValue call |
| Defaults.BytesDefaultText | compiler/us/us_helpers.cc:390-398 | a bytes field prints ByteString.EMPTY iff it has no default |
| Defaults.JavaDefaultIsZeroLiteral | compiler/us/us_helpers.cc:426-456 | for integers the default is the Java default iff it prints as 0 (0L for 64-bit); for bool iff it prints false; never for strings |
| OptionPredicates.LiteRuntimeSwitches | compiler/us/us_helpers.h:131-166 | unknown-field tracking, descriptor methods and nested builders are one switch; a file without descriptor methods (lite) still has generated methods, and one without generated methods (code size) still has descriptor methods |
| OptionPredicates.GenericServicesNeedServices | compiler/us/us_helpers.h:169-173 | generic services iff there is a service, the runtime is not lite, and java_generic_services is set |
| Printing.TextLinesAt | compiler/us/us_message.cc:102-307 | one Print call of n texts yields n lines at the indentation in effect, in order |
| Printing.LinesAppend | compiler/us/us_message.cc:102-307 | the lines of consecutive Print calls are the concatenation of their lines |
| Printing.LinesOfSingles | compiler/us/us_message.cc:109-113 | Print calls of one text each yield one line per call, in order |
| Printing.Printer.Print | compiler/us/us_message.cc:104 | a Print call appends one chunk of its texts at the indentation in effect and leaves the indentation as it was |
| Printing.Printer.Indent | compiler/us/us_message.cc:140 | indents every following line by two more spaces and prints nothing |
| Printing.Printer.Outdent | compiler/us/us_message.cc:168 | undoes one Indent and prints nothing |
| MessageGen.MessageGenerator.HasRepeatedField | compiler/us/us_message.cc:94-100 | the early-return loop answers whether some field is repeated |
| MessageGen.MessageGenerator.Generate | compiler/us/us_message.cc:102-307 | appends the five sections of the class at the printer's indentation and leaves the indentation as it was |
| MessageGen.MessageGenerator.PrintDeclarations | compiler/us/us_message.cc:103-136 | appends the declaration, the constants, the storage members and the functions comment |
| MessageGen.MessageGenerator.PrintConstants | compiler/us/us_message.cc:106-113 | the loop appends the comment and one constant per field, in order |
| MessageGen.MessageGenerator.PrintConstant | compiler/us/us_message.cc:110-112 | appends the one constant line of a field |
| MessageGen.MessageGenerator.PrintVariables | compiler/us/us_message.cc:115-134 | the loop appends the comment and one storage member per field, in order |
| MessageGen.MessageGenerator.PrintVariable | compiler/us/us_message.cc:118-133 | appends `var array<T>` for a repeated field and `var T` otherwise |
| MessageGen.MessageGenerator.PrintSerialize | compiler/us/us_message.cc:138-170 | appends the Serialize function and restores the indentation |
| MessageGen.MessageGenerator.PrintSerializeHead | compiler/us/us_message.cc:139-145 | appends the header and the optional index, one level deeper |
| MessageGen.MessageGenerator.PrintSerializeBlocks | compiler/us/us_message.cc:146-166 | the loop appends one block per field, in order |
| MessageGen.MessageGenerator.PrintSerializeBlock | compiler/us/us_message.cc:147-165 | appends an element loop around the write call of a repeated field, and the bare call of a singular one |
| MessageGen.MessageGenerator.CloseBlock | compiler/us/us_message.cc:168-170 | two Outdents, then the closing brace one level out |
| MessageGen.MessageGenerator.PrintDeserialize | compiler/us/us_message.cc:172-251 | appends the Deserialize function and restores the indentation |
| MessageGen.MessageGenerator.PrintDeserializeHead | compiler/us/us_message.cc:173-192 | appends the header, the locals, the first ReadTag, the loop head and the field-number line, two levels deeper |
| MessageGen.MessageGenerator.PrintBranches | compiler/us/us_message.cc:195-242 | the loop appends one branch per field, only the first a plain `if` |
| MessageGen.MessageGenerator.PrintBranch | compiler/us/us_message.cc:196-242 | appends the test, the braces and the decode statement of one field |
| MessageGen.MessageGenerator.PrintDecode | compiler/us/us_message.cc:201-236 | appends AddItem for a repeated field and an assignment otherwise, with the class cast for message fields |
| MessageGen.MessageGenerator.PrintDeserializeTail | compiler/us/us_message.cc:245-251 | appends the next ReadTag and closes the loop and the function |
| MessageGen.MessageGenerator.PrintSerializedSize | compiler/us/us_message.cc:253-297 | appends the GetSerializedSize function and restores the indentation |
| MessageGen.MessageGenerator.PrintSizeHead | compiler/us/us_message.cc:254-263 | appends the header, `_size`, the optional index and the zeroed sum |
| MessageGen.MessageGenerator.PrintSizeBlocks | compiler/us/us_message.cc:265-292 | the loop appends one size block per field, in order |
| MessageGen.MessageGenerator.PrintSizeBlock | compiler/us/us_message.cc:266-291 | appends a loop bounded by the raw name around the term of a repeated field, and the bare term otherwise |
| MessageGen.MessageGenerator.PrintSizeTail | compiler/us/us_message.cc:294-297 | appends the return and closes the function |
| MessageGen.MessageGenerator.PrintDefaultProperties | compiler/us/us_message.cc:299-306 | appends the defaultproperties block with the `_id` line |
| MessageGen.MessageChunksSplit | compiler/us/us_message.cc:102-307 | the class is its declarations, then the three functions, then defaultproperties |
| MessageGen.MessageChunksEnds | compiler/us/us_message.cc:104 | the first Print is the class declaration and the last three are the defaultproperties block |
| MessageGen.SortFieldsByNumber | compiler/us/us_message.cc:71-80 | a fresh array that is a permutation of the fields, sorted by number |
| MessageGen.SortByNumber | compiler/us/us_message.cc:77-78 | sorts in place by field number, keeping the multiset of fields |
| MessageGen.InsertAt | compiler/us/us_message.cc:77-78 | inserting one element makes the prefix up to it sorted, keeps the multiset, and leaves everything after it unchanged |
| MessageGen.InsertedSorted | compiler/us/us_message.cc:77-78 | once the element stops moving, the prefix is sorted |
| MessageProps.FirstAndLastLines | compiler/us/us_message.cc:104-306 | the first line is `class Message<Name> extends Message;` and the last two are `_id = "<Name>";` and `}` |
| MessageProps.DefaultPropertiesLines | compiler/us/us_message.cc:300-306 | the block is a blank line, the header, `{`, the id line one level deeper, and `}` |
| MessageProps.ConstantsAt | compiler/us/us_message.cc:109-113 | one constant Print per field, in declaration order |
| MessageProps.ConstantLinesAt | compiler/us/us_message.cc:109-113 | one constant line per field, in declaration order, at the class's indentation |
| MessageProps.ConstantLineNamesField | compiler/us/us_message.cc:110-112 | the constant is named FieldConstantName(f) and its decimal value reads back as the field number |
| MessageProps.VariablesAt | compiler/us/us_message.cc:118-134 | one storage Print per field, in declaration order |
| MessageProps.VariableLinesAt | compiler/us/us_message.cc:118-134 | one storage line per field, in declaration order |
| MessageProps.WriteLinesAt | compiler/us/us_message.cc:147-165 | the reference list holds each field's write line, in order |
| MessageProps.WriteCallStartsWithStream | compiler/us/us_message.cc:147-165 | every write call starts with "stream." |
| MessageProps.SerializeBlockSelect | compiler/us/us_message.cc:147-165 | a field's block makes exactly its own write call |
| MessageProps.SerializeBlocksSelect | compiler/us/us_message.cc:146-166 | the write calls of the blocks are the fields' write lines, in order |
| MessageProps.SerializeHeadLines | compiler/us/us_message.cc:139-144 | the header makes no write call and declares the index iff some field is repeated |
| MessageProps.SerializeWritesEachField | compiler/us/us_message.cc:139-170 | Serialize writes each field exactly once, in order (per element inside a loop for repeated fields), and declares `idx` iff some field is repeated |
| MessageProps.BranchLines | compiler/us/us_message.cc:195-242 | a branch is the test, `{`, the decode statement one level deeper, and `}` |
| MessageProps.BranchesAt | compiler/us/us_message.cc:195-242 | field i's branch is lines 4i to 4i+3 of the dispatch |
| MessageProps.TestLineNamesConstant | compiler/us/us_message.cc:196-197 | the first test is `if`, the rest `else if`, each comparing against the field's constant |
| MessageProps.DeserializeHeadAt | compiler/us/us_message.cc:173-192 | the ten lines before the first branch |
| MessageProps.DeserializeTailAt | compiler/us/us_message.cc:245-251 | the four lines after the last branch |
| MessageProps.DeserializeShape | compiler/us/us_message.cc:173-251 | `fieldNumber` is declared and stored iff there are fields; a tag is read before `while (tag > 0)`; the branches follow in order; after the last one, with no else, the next tag is read, so an unmatched number falls through |
| MessageProps.SizeLinesAt | compiler/us/us_message.cc:266-291 | the reference list holds each field's size line, in order |
| MessageProps.SizeTermStartsWithSum | compiler/us/us_message.cc:266-291 | every size term starts with "_size += " |
| MessageProps.SizeBlockSelect | compiler/us/us_message.cc:266-291 | a field's block adds exactly its own term |
| MessageProps.SizeBlocksSelect | compiler/us/us_message.cc:265-292 | the terms of the blocks are the fields' size lines, in order |
| MessageProps.SizeHeadLines | compiler/us/us_message.cc:254-263 | the head adds no term and declares the index iff some field is repeated |
| MessageProps.SizeSumsEachField | compiler/us/us_message.cc:254-297 | GetSerializedSize adds one term per field, in order (per element for repeated ones), and declares `idx` iff some field is repeated |
| MessageProps.SizeSectionFrame | compiler/us/us_message.cc:254-297 | the sum is zeroed before the terms and returned after them, before the closing brace |
| MessageProps.SizeLoopUsesRawName | compiler/us/us_message.cc:266-276 | the size loop and the write loop headers differ exactly for a field named "name" |
| MessageNesting.NestsCount | compiler/us/us_message.cc:139-306 | nested lines open and close the same number of braces, apart from those left open |
| MessageNesting.DeclarationsNest | compiler/us/us_message.cc:103-136 | the declarations sit at the starting level with no braces |
| MessageNesting.SerializeNests | compiler/us/us_message.cc:139-170 | Serialize's lines nest and return to the starting level |
| MessageNesting.DeserializeNests | compiler/us/us_message.cc:173-251 | Deserialize's lines nest, two levels deep inside the loop, and return to the starting level |
| MessageNesting.SizeNests | compiler/us/us_message.cc:254-297 | GetSerializedSize's lines nest and return to the starting level |
| MessageNesting.DefaultPropertiesNest | compiler/us/us_message.cc:300-306 | the defaultproperties block nests and returns to the starting level |
| MessageNesting.MessageNests | compiler/us/us_message.cc:102-307 | every line of the class is indented four spaces per brace open around it, and the class closes every brace it opens |
| FileGen.FileGenerator.constructor | compiler/us/us_file.cc:49-53 | the Java package and the outer class name are computed once, from the file |
| FileGen.FileGenerator.Validate | compiler/us/us_file.cc:57-93 | fails iff the class name is some top-level enum, message or service name; on failure the error is the fixed text, otherwise it is left as it was |
| FileGen.NestedTypesNotCompared | compiler/us/us_file.cc:63-79 | changing a message's nested types never changes the verdict |
| FileGen.ConflictMessageNamesFile | compiler/us/us_file.cc:80-89 | the error is the file name, the lead-in, the class name and the advice, each at its own offset |
| FileGen.GenerateSibling | compiler/us/us_file.cc:96-117 | appends `package_dir + "Message" + name + suffix + ".uc"` to the list and writes the header followed by the class under that name |
| FileGen.FileGenerator.Generate | compiler/us/us_file.cc:119-128 | appends one filename and one unit per top-level message, in order, after what was already there |
| FileGen.SiblingNamesAt | compiler/us/us_file.cc:103-125 | the i-th recorded name is the package dir, "Message", the i-th message name and ".uc" |
| FileGen.UnitsAt | compiler/us/us_file.cc:119-128 | the i-th unit is the i-th message's unit under its filename |
| FileGen.UnitsMatchNames | compiler/us/us_file.cc:103-116 | the units are written under the recorded names, in the same order |
| FileGen.UnitShape | compiler/us/us_file.cc:111-116 | a unit is the do-not-edit header and a blank line, then the class declaration and the rest of the class, nesting from column 0 |
| FileGen.UnitNests | compiler/us/us_file.cc:111-116 | a unit's braces and indentation nest from column 0 back to column 0 |
| Driver.Generate | compiler/us/us_generator.cc:52-95 | an unknown option fails with its message before validation and before any file is written; a validation failure writes nothing; otherwise the units and, iff a list file is named, the list are written and the error is untouched |
| Driver.PrintFileList | compiler/us/us_generator.cc:89-91 | the loop prints one filename per line at column 0 |
| Driver.FileListLines | compiler/us/us_generator.cc:89-91 | the list file has one line per filename, in order |
| Driver.ScanErrorPersists | compiler/us/us_generator.cc:62-69 | once an unknown key is met, the scan fails with that key whatever follows |
| Driver.ScanSucceedsIffAllKnown | compiler/us/us_generator.cc:62-69 | the scan succeeds iff every key is output_list_file, and then the last value wins |
| Driver.UnknownOptionIsFirst | compiler/us/us_generator.cc:62-69 | a failed scan names the first unknown key |
| Driver.ManifestListsUnits | compiler/us/us_generator.cc:80-92 | the list file names every unit, in order, as "Message<Name>.uc" at column 0 |
| Driver.OutputCount | compiler/us/us_generator.cc:80-92 | a successful run writes one unit per top-level message, plus one list file iff it is named |

## Left out

- `io::Printer` writes through a `ZeroCopyOutputStream`. io::Printer is not part of this model: the `Printer` class records the Print calls and the indentation, and `GeneratorContext` records each file as its emitted lines. `$`-variable substitution is done by building the texts directly.
- `ParseGeneratorParameter` is not part of this model; `Driver.Generate` takes the parsed (key, value) pairs.
- `GOOGLE_LOG(FATAL)` for an unsupported field type is an abort. The type tables return `None` for those types, and the emitters require every field to be supported. `Driver.Generate` requires that only where the source would reach the emitter, after a successful option scan and validation.
- `Printing.Printer.Outdent` on an empty indentation is a debug-fatal error in the source; the model makes it a precondition.
- `CEscape` is a parameter of `Defaults.DefaultValue`, and nothing is assumed about it.
- The float and double branches of `DefaultValue` and `IsDefaultValueJavaDefault` are left out because they are floating point. The enum and message branches are left out because they need descriptor linkage.
- `UpperString`, `SimpleItoa`, `StringReplace`, `HasSuffixString`, `StripSuffixString` and `toupper` are library code. They are modelled by their ASCII and decimal meaning in `StrUtil`.
- `std::sort` in `SortFieldsByNumber` is modelled as an insertion sort. The sort is specified only by its result, which is sorted and a permutation. The element order among equal numbers, which `std::sort` leaves unspecified, is not modelled.
- `kThickSeparator`, `kThinSeparator`, `ExtensionRangeOrdering` and `ShouldIncludeDependency` are left out; they are unused or always true.
- The generated UnrealScript runtime (ReadTag, Write*, Compute*Size, GetTagFieldNumber) is not part of this model, so nothing is claimed about encoding or decoding; only the emitted text is specified.
- The `error` and `file_list` out-parameters are modelled as values passed in and returned.
- The descriptor `ClassName` overloads and `ExtensionIdentifierName` are modelled by `Naming.TopLevelClassName` for top-level declarations only, because the full name of a nested declaration comes from the descriptor tree. `Naming.ToJavaName` itself works on any full name.
- The characters io::Printer writes for indentation are not rendered: each line keeps its indentation as a number of spaces.
