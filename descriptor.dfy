/**
 * The parsed schema the generator reads: an immutable tree of files,
 * messages, fields, enums and services, reduced to what the UnrealScript
 * generator looks at.
 */
module Descriptor {
  import opened Wrappers

  type byte = bv8

  /** FieldDescriptor::Type: the eighteen declared field types. */
  datatype FieldType =
    | Double | Float | Int64 | UInt64 | Int32 | Fixed64 | Fixed32 | Bool | String
    | Group | Message | Bytes | UInt32 | Enum | SFixed32 | SFixed64 | SInt32 | SInt64

  /** FieldDescriptor::CppType: the in-memory category a default is stored in. */
  datatype CppType =
    | CppInt32 | CppInt64 | CppUInt32 | CppUInt64 | CppDouble | CppFloat
    | CppBool | CppEnum | CppString | CppMessage

  /** The descriptor library's fixed type-to-category table. */
  function TypeToCppType(t: FieldType): CppType
  {
    match t
    case Double => CppDouble
    case Float => CppFloat
    case Int64 => CppInt64
    case UInt64 => CppUInt64
    case Int32 => CppInt32
    case Fixed64 => CppUInt64
    case Fixed32 => CppUInt32
    case Bool => CppBool
    case String => CppString
    case Group => CppMessage
    case Message => CppMessage
    case Bytes => CppString
    case UInt32 => CppUInt32
    case Enum => CppEnum
    case SFixed32 => CppInt32
    case SFixed64 => CppInt64
    case SInt32 => CppInt32
    case SInt64 => CppInt64
  }

  /** A declared default, for the categories this model formats. */
  datatype DefaultLiteral =
    | IntDefault(i: int)
    | BoolDefault(b: bool)
    | StringDefault(bytes: seq<byte>)

  /**
   * A field: its name, number, declared type, whether it is repeated, the
   * name of the message (or group) type it refers to, and its declared
   * default, if any.
   */
  datatype Field = Field(
    name: string,
    number: int,
    fieldType: FieldType,
    repeated: bool,
    typeName: string,
    defaultValue: Option<DefaultLiteral>)

  /** A message type with its fields in declaration order and its nested types. */
  datatype MessageType = MessageType(name: string, fields: seq<Field>, nestedTypes: seq<MessageType>)

  datatype EnumType = EnumType(name: string)

  datatype ServiceType = ServiceType(name: string)

  datatype OptimizeMode = Speed | CodeSize | LiteRuntime

  /** The file-level options the generator consults. */
  datatype FileOptions = FileOptions(
    javaPackage: Option<string>,
    javaOuterClassname: Option<string>,
    javaMultipleFiles: bool,
    javaGenerateEqualsAndHash: bool,
    javaGenericServices: bool,
    optimizeFor: OptimizeMode)

  /** A schema file with its top-level declarations in order. */
  datatype FileDescriptor = FileDescriptor(
    name: string,
    package: string,
    options: FileOptions,
    enumTypes: seq<EnumType>,
    messageTypes: seq<MessageType>,
    services: seq<ServiceType>)

  /** The fully-qualified name of a type declared at the top level of a file. */
  function TopLevelFullName(file: FileDescriptor, name: string): (r: string)
  {
    if file.package == "" then name else file.package + "." + name
  }

  // ---------------------------------------------------------------------
  // The default_value_* accessors: the declared default or the type's zero.
  // ---------------------------------------------------------------------

  function DefaultInt(f: Field): int
  {
    match f.defaultValue
    case Some(IntDefault(v)) => v
    case _ => 0
  }

  function DefaultBool(f: Field): bool
  {
    match f.defaultValue
    case Some(BoolDefault(b)) => b
    case _ => false
  }

  function DefaultBytes(f: Field): seq<byte>
  {
    match f.defaultValue
    case Some(StringDefault(s)) => s
    case _ => []
  }

  const Int32Min: int := -0x8000_0000
  const Int32Bound: int := 0x8000_0000
  const UInt32Bound: int := 0x1_0000_0000
  const Int64Min: int := -0x8000_0000_0000_0000
  const Int64Bound: int := 0x8000_0000_0000_0000
  const UInt64Bound: int := 0x1_0000_0000_0000_0000

  /**
   * What the schema parser guarantees of a declared default: it has the
   * kind of the field's category and fits its width.
   */
  predicate DefaultFits(f: Field)
  {
    match f.defaultValue
    case None => true
    case Some(IntDefault(v)) =>
      (match TypeToCppType(f.fieldType)
       case CppInt32 => Int32Min <= v < Int32Bound
       case CppUInt32 => 0 <= v < UInt32Bound
       case CppInt64 => Int64Min <= v < Int64Bound
       case CppUInt64 => 0 <= v < UInt64Bound
       case _ => false)
    case Some(BoolDefault(_)) => TypeToCppType(f.fieldType) == CppBool
    case Some(StringDefault(_)) => TypeToCppType(f.fieldType) == CppString
  }
}
