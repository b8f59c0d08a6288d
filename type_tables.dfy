/**
 * The closed switches from a field's declared type to its UnrealScript
 * storage category, its Read/Write/Compute...Size method names and its
 * primitive type name (us_helpers.cc, enum in us_helpers.h). A type the
 * generator does not support has no entry: the source stops the process
 * with GOOGLE_LOG(FATAL), modelled here as None.
 */
module TypeTables {
  import opened Wrappers
  import opened Descriptor

  /** UnrealScriptType: the five storage categories. */
  datatype UnrealScriptType = TypeInt | TypeString | TypeBoolean | TypeMessage | TypeBytes

  /** The nine field types the generator can emit code for. */
  predicate IsSupported(t: FieldType)
  {
    match t
    case Int32 | UInt32 | SInt32 | Fixed32 | SFixed32 | String | Bool | Message | Bytes => true
    case _ => false
  }

  function GetUnrealScriptType(t: FieldType): (r: Option<UnrealScriptType>)
    ensures r.Some? <==> IsSupported(t)
  {
    match t
    case Int32 | UInt32 | SInt32 | Fixed32 | SFixed32 => Some(TypeInt)
    case String => Some(TypeString)
    case Bool => Some(TypeBoolean)
    case Message => Some(TypeMessage)
    case Bytes => Some(TypeBytes)
    case _ => None
  }

  /**
   * The integer category is exactly the five 32-bit integer types, and the
   * other categories are each one type.
   */
  lemma UnrealScriptTypeCategories(t: FieldType)
    ensures GetUnrealScriptType(t) == Some(TypeInt)
        <==> TypeToCppType(t) == CppInt32 || TypeToCppType(t) == CppUInt32
    ensures GetUnrealScriptType(t) == Some(TypeString) <==> t == String
    ensures GetUnrealScriptType(t) == Some(TypeBoolean) <==> t == Bool
    ensures GetUnrealScriptType(t) == Some(TypeMessage) <==> t == Message
    ensures GetUnrealScriptType(t) == Some(TypeBytes) <==> t == Bytes
  {
  }

  /** Every storage category is reached by some field type. */
  lemma EveryCategoryReached(u: UnrealScriptType)
    ensures exists t :: GetUnrealScriptType(t) == Some(u)
  {
    match u
    case TypeInt => assert GetUnrealScriptType(Int32) == Some(u);
    case TypeString => assert GetUnrealScriptType(String) == Some(u);
    case TypeBoolean => assert GetUnrealScriptType(Bool) == Some(u);
    case TypeMessage => assert GetUnrealScriptType(Message) == Some(u);
    case TypeBytes => assert GetUnrealScriptType(Bytes) == Some(u);
  }

  /** The diagnostic label of every declared type. */
  function GetTypeLabel(t: FieldType): string
  {
    match t
    case Double => "TYPE_DOUBLE"
    case Float => "TYPE_FLOAT"
    case Int64 => "TYPE_INT64"
    case UInt64 => "TYPE_UINT64"
    case Int32 => "TYPE_INT32"
    case Fixed64 => "TYPE_FIXED64"
    case Fixed32 => "TYPE_FIXED32"
    case Bool => "TYPE_BOOL"
    case String => "TYPE_STRING"
    case Group => "TYPE_GROUP"
    case Message => "TYPE_MESSAGE"
    case Bytes => "TYPE_BYTES"
    case UInt32 => "TYPE_UINT32"
    case Enum => "TYPE_ENUM"
    case SFixed32 => "TYPE_SFIXED32"
    case SFixed64 => "TYPE_SFIXED64"
    case SInt32 => "TYPE_SINT32"
    case SInt64 => "TYPE_SINT64"
  }

  /** Reads a label back. */
  function LabelType(text: string): Option<FieldType>
  {
    if text == "TYPE_DOUBLE" then Some(Double)
    else if text == "TYPE_FLOAT" then Some(Float)
    else if text == "TYPE_INT64" then Some(Int64)
    else if text == "TYPE_UINT64" then Some(UInt64)
    else if text == "TYPE_INT32" then Some(Int32)
    else if text == "TYPE_FIXED64" then Some(Fixed64)
    else if text == "TYPE_FIXED32" then Some(Fixed32)
    else if text == "TYPE_BOOL" then Some(Bool)
    else if text == "TYPE_STRING" then Some(String)
    else if text == "TYPE_GROUP" then Some(Group)
    else if text == "TYPE_MESSAGE" then Some(Message)
    else if text == "TYPE_BYTES" then Some(Bytes)
    else if text == "TYPE_UINT32" then Some(UInt32)
    else if text == "TYPE_ENUM" then Some(Enum)
    else if text == "TYPE_SFIXED32" then Some(SFixed32)
    else if text == "TYPE_SFIXED64" then Some(SFixed64)
    else if text == "TYPE_SINT32" then Some(SInt32)
    else if text == "TYPE_SINT64" then Some(SInt64)
    else None
  }

  /** Each type has its own label: reading the label back names the type. */
  lemma TypeLabelRoundTrip(t: FieldType)
    ensures LabelType(GetTypeLabel(t)) == Some(t)
  {
  }

  lemma TypeLabelInjective(a: FieldType, b: FieldType)
    ensures GetTypeLabel(a) == GetTypeLabel(b) <==> a == b
  {
    TypeLabelRoundTrip(a);
    TypeLabelRoundTrip(b);
  }

  /** The part the Read, Write and Compute...Size names of a supported type share. */
  function MethodStem(t: FieldType): (r: Option<string>)
  {
    match t
    case Int32 => Some("Int32")
    case UInt32 => Some("UInt32")
    case SInt32 => Some("SInt32")
    case Fixed32 => Some("Fixed32")
    case SFixed32 => Some("SFixed32")
    case String => Some("String")
    case Bool => Some("Bool")
    case Message => Some("Message")
    case Bytes => Some("Bytes")
    case _ => None
  }

  function GetDeserializeMethodName(t: FieldType): (r: Option<string>)
    ensures r.Some? <==> IsSupported(t)
  {
    match t
    case Int32 => Some("ReadInt32")
    case UInt32 => Some("ReadUInt32")
    case SInt32 => Some("ReadSInt32")
    case Fixed32 => Some("ReadFixed32")
    case SFixed32 => Some("ReadSFixed32")
    case String => Some("ReadString")
    case Bool => Some("ReadBool")
    case Message => Some("ReadMessage")
    case Bytes => Some("ReadBytes")
    case _ => None
  }

  function GetSerializeMethodName(t: FieldType): (r: Option<string>)
    ensures r.Some? <==> IsSupported(t)
  {
    match t
    case Int32 => Some("WriteInt32")
    case UInt32 => Some("WriteUInt32")
    case SInt32 => Some("WriteSInt32")
    case Fixed32 => Some("WriteFixed32")
    case SFixed32 => Some("WriteSFixed32")
    case String => Some("WriteString")
    case Bool => Some("WriteBool")
    case Message => Some("WriteMessage")
    case Bytes => Some("WriteBytes")
    case _ => None
  }

  function GetComputeSizeMethodName(t: FieldType): (r: Option<string>)
    ensures r.Some? <==> IsSupported(t)
  {
    match t
    case Int32 => Some("ComputeInt32Size")
    case UInt32 => Some("ComputeUInt32Size")
    case SInt32 => Some("ComputeSInt32Size")
    case Fixed32 => Some("ComputeFixed32Size")
    case SFixed32 => Some("ComputeSFixed32Size")
    case String => Some("ComputeStringSize")
    case Bool => Some("ComputeBoolSize")
    case Message => Some("ComputeMessageSize")
    case Bytes => Some("ComputeBytesSize")
    case _ => None
  }

  /** The Read method of a supported type is "Read" followed by its stem. */
  lemma DeserializeNameHasStem(t: FieldType)
    ensures MethodStem(t).Some? <==> IsSupported(t)
    ensures MethodStem(t).Some? ==> GetDeserializeMethodName(t) == Some("Read" + MethodStem(t).value)
  {
    match t
    case Int32 => assert "Read" + "Int32" == "ReadInt32";
    case UInt32 => assert "Read" + "UInt32" == "ReadUInt32";
    case SInt32 => assert "Read" + "SInt32" == "ReadSInt32";
    case Fixed32 => assert "Read" + "Fixed32" == "ReadFixed32";
    case SFixed32 => assert "Read" + "SFixed32" == "ReadSFixed32";
    case String => assert "Read" + "String" == "ReadString";
    case Bool => assert "Read" + "Bool" == "ReadBool";
    case Message => assert "Read" + "Message" == "ReadMessage";
    case Bytes => assert "Read" + "Bytes" == "ReadBytes";
    case _ =>
  }

  /** The Write method is "Write" followed by the same stem. */
  lemma SerializeNameHasStem(t: FieldType)
    ensures MethodStem(t).Some? <==> IsSupported(t)
    ensures MethodStem(t).Some? ==> GetSerializeMethodName(t) == Some("Write" + MethodStem(t).value)
  {
    match t
    case Int32 => assert "Write" + "Int32" == "WriteInt32";
    case UInt32 => assert "Write" + "UInt32" == "WriteUInt32";
    case SInt32 => assert "Write" + "SInt32" == "WriteSInt32";
    case Fixed32 => assert "Write" + "Fixed32" == "WriteFixed32";
    case SFixed32 => assert "Write" + "SFixed32" == "WriteSFixed32";
    case String => assert "Write" + "String" == "WriteString";
    case Bool => assert "Write" + "Bool" == "WriteBool";
    case Message => assert "Write" + "Message" == "WriteMessage";
    case Bytes => assert "Write" + "Bytes" == "WriteBytes";
    case _ =>
  }

  /** The size method is "Compute", the same stem, then "Size". */
  lemma ComputeSizeNameHasStem(t: FieldType)
    ensures MethodStem(t).Some? <==> IsSupported(t)
    ensures MethodStem(t).Some? ==> GetComputeSizeMethodName(t) == Some("Compute" + MethodStem(t).value + "Size")
  {
    match t
    case Int32 => assert "Compute" + "Int32" + "Size" == "ComputeInt32Size";
    case UInt32 => assert "Compute" + "UInt32" + "Size" == "ComputeUInt32Size";
    case SInt32 => assert "Compute" + "SInt32" + "Size" == "ComputeSInt32Size";
    case Fixed32 => assert "Compute" + "Fixed32" + "Size" == "ComputeFixed32Size";
    case SFixed32 => assert "Compute" + "SFixed32" + "Size" == "ComputeSFixed32Size";
    case String => assert "Compute" + "String" + "Size" == "ComputeStringSize";
    case Bool => assert "Compute" + "Bool" + "Size" == "ComputeBoolSize";
    case Message => assert "Compute" + "Message" + "Size" == "ComputeMessageSize";
    case Bytes => assert "Compute" + "Bytes" + "Size" == "ComputeBytesSize";
    case _ =>
  }

  /** The UnrealScript spelling of a category; MESSAGE has none and gets the placeholder "NULL". */
  function GetPrimitiveTypeName(u: UnrealScriptType): (r: string)
    ensures r == "NULL" <==> u == TypeMessage
  {
    match u
    case TypeInt => "int"
    case TypeString => "string"
    case TypeBoolean => "bool"
    case TypeMessage => "NULL"
    case TypeBytes => "Array<byte>"
  }

  /** The storage type of a supported field: its message class, or its primitive name. */
  function StorageTypeName(f: Field): (r: string)
    requires IsSupported(f.fieldType)
    ensures f.fieldType == Message ==> r == "Message" + f.typeName
    ensures f.fieldType != Message ==> r in {"int", "string", "bool", "Array<byte>"}
  {
    if f.fieldType == Message then "Message" + f.typeName
    else GetPrimitiveTypeName(GetUnrealScriptType(f.fieldType).value)
  }

  /** The categories have distinct spellings. */
  lemma PrimitiveTypeNamesDistinct(a: UnrealScriptType, b: UnrealScriptType)
    ensures GetPrimitiveTypeName(a) == GetPrimitiveTypeName(b) <==> a == b
  {
  }

  /**
   * Which storage type each supported field gets: the 32-bit integers share
   * "int", the other scalars have their own name, and a message field is
   * stored as its generated class, so the "NULL" placeholder never appears.
   */
  lemma StorageTypeNameByType(f: Field)
    requires IsSupported(f.fieldType)
    ensures StorageTypeName(f) == "int" <==> TypeToCppType(f.fieldType) in {CppInt32, CppUInt32}
    ensures StorageTypeName(f) == "string" <==> f.fieldType == String
    ensures StorageTypeName(f) == "bool" <==> f.fieldType == Bool
    ensures StorageTypeName(f) == "Array<byte>" <==> f.fieldType == Bytes
    ensures StorageTypeName(f) != "NULL"
  {
    UnrealScriptTypeCategories(f.fieldType);
    if f.fieldType == Message {
      var r := "Message" + f.typeName;
      assert r[0] == 'M' && |r| >= 7;
    }
  }
}
