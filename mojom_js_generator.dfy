/**
 * The helpers the mojom-to-JavaScript bindings generator uses while expanding
 * its templates: default values, codec names, decode/encode snippets, payload
 * sizes, constant names, qualified type names and unique import names.
 */
module MojomJsGenerator {
  import opened Wrappers
  import Decimal

  /** The primitive mojom kinds. */
  datatype Primitive =
    | Bool | Int8 | Uint8 | Int16 | Uint16 | Int32 | Uint32 | Float
    | Handle | DataPipeConsumer | DataPipeProducer | MessagePipe | SharedBuffer
    | Int64 | Uint64 | Double | String

  /** A user-defined kind's name and, when it comes from another module, that import's unique name. */
  datatype Declaration = Declaration(name: string, importedFrom: Option<string>)

  datatype Kind =
    | Prim(primitive: Primitive)
    | Struct(decl: Declaration)
    | Array(element: Kind)
    | Interface(decl: Declaration)
    | Enum(decl: Declaration)

  /** A struct field; `default` is its explicit default, if any. */
  datatype Field = Field(kind: Kind, default: Option<string>)

  /** A string value, or the exception raised instead of one. */
  datatype Generated = Text(text: string) | Raised(message: string)

  const InvalidHandle := "core.kInvalidHandle"

  predicate IsHandle(p: Primitive) {
    p in {Handle, DataPipeConsumer, DataPipeProducer, MessagePipe, SharedBuffer}
  }

  /** The JavaScript default value of each primitive. */
  function PrimitiveDefault(p: Primitive): string {
    match p
    case Bool => "false"
    case String => "\"\""
    case _ => if IsHandle(p) then InvalidHandle else "0"
  }

  /** A Python default is truthy only when present and non-empty. */
  predicate HasDefault(f: Field) {
    f.default.Some? && f.default.value != ""
  }

  function JavaScriptDefaultValue(f: Field): Generated {
    if HasDefault(f) then Raised("Default values should've been handled in jinja.")
    else match f.kind
      case Prim(p) => Text(PrimitiveDefault(p))
      case Struct(_) => Text("null")
      case Array(_) => Text("[]")
      case Interface(_) => Text(PrimitiveDefault(MessagePipe))
      case Enum(_) => Text("0")
  }

  /**
   * A field with an explicit default raises; otherwise the default is "null"
   * exactly for structs, "[]" exactly for arrays, the invalid handle exactly for
   * handles and interfaces, "0" for numbers and enums.
   */
  lemma DefaultValueCases(f: Field)
    ensures JavaScriptDefaultValue(f).Raised? <==> HasDefault(f)
    ensures !HasDefault(f) ==> (JavaScriptDefaultValue(f) == Text("null") <==> f.kind.Struct?)
    ensures !HasDefault(f) ==> (JavaScriptDefaultValue(f) == Text("[]") <==> f.kind.Array?)
    ensures !HasDefault(f) ==> (JavaScriptDefaultValue(f) == Text(InvalidHandle) <==>
      f.kind.Interface? || (f.kind.Prim? && IsHandle(f.kind.primitive)))
    ensures !HasDefault(f) && f.kind.Enum? ==> JavaScriptDefaultValue(f) == Text("0")
  {
  }

  // ---------------------------------------------------------------------------
  // Codecs and snippets

  function PrimitiveCodec(p: Primitive): string {
    match p
    case Bool => "codec.Uint8"
    case Int8 => "codec.Int8"
    case Uint8 => "codec.Uint8"
    case Int16 => "codec.Int16"
    case Uint16 => "codec.Uint16"
    case Int32 => "codec.Int32"
    case Uint32 => "codec.Uint32"
    case Float => "codec.Float"
    case Int64 => "codec.Int64"
    case Uint64 => "codec.Uint64"
    case Double => "codec.Double"
    case String => "codec.String"
    case _ => "codec.Handle"
  }

  /** Nesting depth, with the kinds that delegate to a primitive one above it. */
  function Rank(k: Kind): nat {
    match k
    case Prim(_) => 0
    case Array(e) => 1 + Rank(e)
    case _ => 1
  }

  function CodecType(k: Kind): string
    decreases Rank(k)
  {
    match k
    case Prim(p) => PrimitiveCodec(p)
    case Struct(d) => "new codec.PointerTo(" + d.name + ")"
    case Array(e) => "new codec.ArrayOf(" + CodecType(e) + ")"
    case Interface(_) => CodecType(Prim(MessagePipe))
    case Enum(_) => CodecType(Prim(Int32))
  }

  /** The kind whose codec a kind is encoded with: interfaces travel as message pipes, enums as Int32. */
  function WireKind(k: Kind): Kind {
    match k
    case Interface(_) => Prim(MessagePipe)
    case Enum(_) => Prim(Int32)
    case Array(e) => Array(WireKind(e))
    case _ => k
  }

  function SnippetArgument(k: Kind): string {
    match k
    case Prim(_) => CodecType(k)
    case Struct(d) => d.name
    case Array(e) => CodecType(e)
    case Interface(_) => CodecType(Prim(MessagePipe))
    case Enum(_) => CodecType(Prim(Int32))
  }

  function SnippetKind(k: Kind): string {
    match k
    case Struct(_) => "StructPointer"
    case Array(_) => "ArrayPointer"
    case _ => "Struct"
  }

  function JavaScriptDecodeSnippet(k: Kind): string
    decreases Rank(k)
  {
    match k
    case Prim(_) => "decodeStruct(" + CodecType(k) + ")"
    case Struct(d) => "decodeStructPointer(" + d.name + ")"
    case Array(e) => "decodeArrayPointer(" + CodecType(e) + ")"
    case Interface(_) => JavaScriptDecodeSnippet(Prim(MessagePipe))
    case Enum(_) => JavaScriptDecodeSnippet(Prim(Int32))
  }

  function JavaScriptEncodeSnippet(k: Kind): string
    decreases Rank(k)
  {
    match k
    case Prim(_) => "encodeStruct(" + CodecType(k) + ", "
    case Struct(d) => "encodeStructPointer(" + d.name + ", "
    case Array(e) => "encodeArrayPointer(" + CodecType(e) + ", "
    case Interface(_) => JavaScriptEncodeSnippet(Prim(MessagePipe))
    case Enum(_) => JavaScriptEncodeSnippet(Prim(Int32))
  }

  /** The reader or writer a snippet calls, and its codec argument: `<Kind>(<codec>`. */
  function SnippetCall(k: Kind): string {
    SnippetKind(k) + "(" + SnippetArgument(k)
  }

  /** `lit` spells out `verb` + `kind` + "(", so a snippet written from it is the call shape. */
  lemma CallShape(verb: string, kind: string, lit: string, x: string, close: string)
    requires verb + (kind + "(") == lit
    ensures lit + x + close == verb + (kind + "(" + x) + close
  {
    assert verb + (kind + "(" + x) == verb + (kind + "(") + x;
  }

  /**
   * The decode snippet calls the kind's reader, `decode<Kind>(<codec>)`:
   * Struct for values, StructPointer for structs, ArrayPointer for arrays.
   * A struct's codec is its name, an array's is its element's codec, and
   * interfaces and enums use their wire primitive's.
   */
  lemma {:induction false} DecodeSnippetShape(k: Kind)
    ensures JavaScriptDecodeSnippet(k) == "decode" + SnippetCall(k) + ")"
    decreases Rank(k)
  {
    match k
    case Prim(_) => CallShape("decode", "Struct", "decodeStruct(", CodecType(k), ")");
    case Struct(d) => CallShape("decode", "StructPointer", "decodeStructPointer(", d.name, ")");
    case Array(e) => CallShape("decode", "ArrayPointer", "decodeArrayPointer(", CodecType(e), ")");
    case Interface(_) => DecodeSnippetShape(Prim(MessagePipe));
    case Enum(_) => DecodeSnippetShape(Prim(Int32));
  }

  /** The encode snippet has the same shape, with the value to encode still to follow. */
  lemma {:induction false} EncodeSnippetShape(k: Kind)
    ensures JavaScriptEncodeSnippet(k) == "encode" + SnippetCall(k) + ", "
    decreases Rank(k)
  {
    match k
    case Prim(_) => CallShape("encode", "Struct", "encodeStruct(", CodecType(k), ", ");
    case Struct(d) => CallShape("encode", "StructPointer", "encodeStructPointer(", d.name, ", ");
    case Array(e) => CallShape("encode", "ArrayPointer", "encodeArrayPointer(", CodecType(e), ", ");
    case Interface(_) => EncodeSnippetShape(Prim(MessagePipe));
    case Enum(_) => EncodeSnippetShape(Prim(Int32));
  }

  /**
   * Decoding and encoding a kind name the same codec: the encode snippet is the
   * decode snippet with "decode" read as "encode" and the closing parenthesis
   * replaced by the value argument's separator.
   */
  lemma {:induction false} EncodeMirrorsDecode(k: Kind)
    ensures var d := JavaScriptDecodeSnippet(k);
      && |d| >= 7
      && JavaScriptEncodeSnippet(k) == "encode" + d[6..|d| - 1] + ", "
  {
    DecodeSnippetShape(k);
    EncodeSnippetShape(k);
    Enclosed("decode", SnippetCall(k), ")");
  }

  lemma Enclosed(a: string, b: string, c: string)
    ensures (a + b + c)[|a|..|a| + |b|] == b
  {
  }

  /** Interfaces share the message pipe's codec and snippets; enums share Int32's. */
  lemma AliasedKindsShareSnippets(d: Declaration)
    ensures CodecType(Interface(d)) == CodecType(Prim(MessagePipe)) == "codec.Handle"
    ensures JavaScriptDecodeSnippet(Interface(d)) == JavaScriptDecodeSnippet(Prim(MessagePipe))
    ensures JavaScriptEncodeSnippet(Interface(d)) == JavaScriptEncodeSnippet(Prim(MessagePipe))
    ensures CodecType(Enum(d)) == CodecType(Prim(Int32)) == "codec.Int32"
    ensures JavaScriptDecodeSnippet(Enum(d)) == JavaScriptDecodeSnippet(Prim(Int32))
    ensures JavaScriptEncodeSnippet(Enum(d)) == JavaScriptEncodeSnippet(Prim(Int32))
  {
  }

  /** An array's codec wraps its element's codec, however deeply nested. */
  lemma {:induction false} ArrayCodecNests(e: Kind, depth: nat)
    ensures CodecType(Nest(e, depth)) == Repeat("new codec.ArrayOf(", depth) + CodecType(e) + Repeat(")", depth)
  {
    NestIsWrapped(e, depth);
    WrappedIsRepeat("new codec.ArrayOf(", CodecType(e), depth);
  }

  lemma {:induction false} NestIsWrapped(e: Kind, depth: nat)
    ensures CodecType(Nest(e, depth)) == Wrapped("new codec.ArrayOf(", CodecType(e), depth)
  {
    if depth > 0 {
      NestIsWrapped(e, depth - 1);
    }
  }

  /** `c` inside `n` calls opened by `open`. */
  function Wrapped(open: string, c: string, n: nat): string {
    if n == 0 then c else open + Wrapped(open, c, n - 1) + ")"
  }

  lemma {:induction false} WrappedIsRepeat(open: string, c: string, n: nat)
    ensures Wrapped(open, c, n) == Repeat(open, n) + c + Repeat(")", n)
  {
    if n > 0 {
      WrappedIsRepeat(open, c, n - 1);
      RepeatAppend(")", n - 1);
      Regroup(open, Repeat(open, n - 1), c, Repeat(")", n - 1), ")");
    }
  }

  lemma Regroup(a: string, b: string, c: string, d: string, e: string)
    ensures a + (b + c + d) + e == (a + b) + c + (d + e)
  {
  }

  function Nest(e: Kind, depth: nat): Kind {
    if depth == 0 then e else Array(Nest(e, depth - 1))
  }

  function Repeat(s: string, n: nat): string {
    if n == 0 then "" else s + Repeat(s, n - 1)
  }

  lemma {:induction false} RepeatAppend(s: string, n: nat)
    ensures Repeat(s, n) + s == Repeat(s, n + 1)
  {
    if n > 0 {
      RepeatAppend(s, n - 1);
    }
  }

  /** Kinds with the same wire kind get the same codec. */
  lemma {:induction false} SameWireKindSameCodec(a: Kind, b: Kind)
    requires WireKind(a) == WireKind(b)
    ensures CodecType(a) == CodecType(b)
    decreases a
  {
    if a.Array? {
      SameWireKindSameCodec(a.element, b.element);
    }
  }

  // ---------------------------------------------------------------------------
  // Payload size

  /** A field as the packer placed it: byte offset and size. */
  datatype PackedField = PackedField(offset: nat, size: nat)

  /** The padding that brings `offset` to the next multiple of 8 (pack.GetPad with alignment 8). */
  function GetPad(offset: nat): (pad: nat)
    ensures pad < 8 && (offset + pad) % 8 == 0
  {
    (8 - offset % 8) % 8
  }

  /** The struct payload: the end of the last packed field, rounded up to 8 bytes; 0 with no fields. */
  function JavaScriptPayloadSize(packed: seq<PackedField>): (r: nat)
    ensures packed == [] ==> r == 0
  {
    if packed == [] then 0
    else
      var last := packed[|packed| - 1];
      var offset := last.offset + last.size;
      offset + GetPad(offset)
  }

  /** The payload size is the smallest multiple of 8 holding the last field. */
  lemma PayloadSizeIsRoundedEnd(packed: seq<PackedField>)
    requires packed != []
    ensures var last := packed[|packed| - 1];
      var end := last.offset + last.size;
      && JavaScriptPayloadSize(packed) % 8 == 0
      && end <= JavaScriptPayloadSize(packed) < end + 8
      && (forall m: nat :: end <= m && m % 8 == 0 ==> JavaScriptPayloadSize(packed) <= m)
  {
  }

  // ---------------------------------------------------------------------------
  // Names

  function Join(parts: seq<string>, sep: char): string {
    if |parts| == 0 then ""
    else if |parts| == 1 then parts[0]
    else parts[0] + [sep] + Join(parts[1..], sep)
  }

  function FirstIndexOf(s: string, c: char): (i: nat)
    requires c in s
    ensures i < |s| && s[i] == c && c !in s[..i]
  {
    if s[0] == c then 0 else 1 + FirstIndexOf(s[1..], c)
  }

  function Split(s: string, sep: char): (r: seq<string>)
    ensures |r| >= 1
    decreases |s|
  {
    if sep !in s then [s]
    else
      var i := FirstIndexOf(s, sep);
      [s[..i]] + Split(s[i + 1..], sep)
  }

  /** Splitting at the first separator peels off the part before it. */
  lemma SplitStep(p: string, sep: char, t: string)
    requires sep !in p
    ensures Split(p + [sep] + t, sep) == [p] + Split(t, sep)
  {
    var s := p + [sep] + t;
    assert s[|p|] == sep;
    var i := FirstIndexOf(s, sep);
    assert i == |p|;
    assert s[..i] == p;
    assert s[i + 1..] == t;
  }

  /** Splitting a join at the separator gives back the parts, when no part contains the separator. */
  lemma {:induction false} SplitJoin(parts: seq<string>, sep: char)
    requires |parts| >= 1
    requires forall i :: 0 <= i < |parts| ==> sep !in parts[i]
    ensures Split(Join(parts, sep), sep) == parts
    decreases |parts|
  {
    if |parts| > 1 {
      SplitStep(parts[0], sep, Join(parts[1..], sep));
      SplitJoin(parts[1..], sep);
      assert parts == [parts[0]] + parts[1..];
    }
  }

  /** An expression token: a named constant, or any other token's text. */
  datatype Token =
    | Constant(importedFrom: Option<string>, parentKind: Option<string>, enumName: string, fieldName: string)
    | Other(text: string)

  /** The parts a constant's JavaScript name is joined from. */
  function ConstantNameParts(c: Token): (parts: seq<string>)
    requires c.Constant?
    ensures |parts| == if c.importedFrom.Some? then 3 else 2
  {
    (if c.importedFrom.Some? then [c.importedFrom.value] else [])
    + [if c.parentKind.Some? then c.parentKind.value + "_" + c.enumName else c.enumName]
    + [c.fieldName]
  }

  function TranslateConstants(token: Token): (r: string)
    ensures token.Other? ==> r == token.text
  {
    match token
    case Constant(_, _, _, _) => Join(ConstantNameParts(token), '.')
    case Other(text) => text
  }

  predicate Dotless(s: string) { '.' !in s }

  /**
   * A constant's name reads back as its parts: the import's unique name when
   * imported, then the (parent-prefixed) enum name, then the field name.
   */
  lemma TranslatedConstantSplits(c: Token)
    requires c.Constant? && Dotless(c.enumName) && Dotless(c.fieldName)
    requires c.importedFrom.Some? ==> Dotless(c.importedFrom.value)
    requires c.parentKind.Some? ==> Dotless(c.parentKind.value)
    ensures Split(TranslateConstants(c), '.') == ConstantNameParts(c)
    ensures var parts := ConstantNameParts(c);
      && parts[|parts| - 1] == c.fieldName
      && (c.importedFrom.Some? ==> parts[0] == c.importedFrom.value)
  {
    var parts := ConstantNameParts(c);
    if c.parentKind.Some? {
      assert Dotless(c.parentKind.value + "_" + c.enumName);
    }
    SplitJoin(parts, '.');
  }

  function JavascriptType(d: Declaration): (r: string)
    ensures d.importedFrom.None? ==> r == d.name
  {
    if d.importedFrom.Some? then d.importedFrom.value + "." + d.name else d.name
  }

  /** An imported type's name reads back as the import's unique name and the type name. */
  lemma JavascriptTypeSplits(d: Declaration)
    requires d.importedFrom.Some? && Dotless(d.importedFrom.value) && Dotless(d.name)
    ensures Split(JavascriptType(d), '.') == [d.importedFrom.value, d.name]
  {
    assert Join([d.importedFrom.value, d.name], '.') == JavascriptType(d);
    SplitJoin([d.importedFrom.value, d.name], '.');
  }

  // ---------------------------------------------------------------------------
  // Imports

  /** An import of the module being generated; GetImports gives it a unique name. */
  class Import {
    const moduleName: string
    var uniqueName: Option<string>

    constructor (moduleName: string)
      ensures this.moduleName == moduleName && uniqueName.None?
    {
      this.moduleName := moduleName;
      uniqueName := None;
    }
  }

  /** The name of the import at position `i` (counting from 0). */
  function ImportName(i: nat): string {
    "import" + Decimal.NatToString(i + 1)
  }

  lemma ImportNamesDistinct(i: nat, j: nat)
    ensures ImportName(i) == ImportName(j) ==> i == j
  {
    if ImportName(i) == ImportName(j) {
      assert Decimal.NatToString(i + 1) == ImportName(i)[6..];
      assert Decimal.NatToString(j + 1) == ImportName(j)[6..];
      Decimal.NatToStringInjective(i + 1, j + 1);
    }
  }

  /** The last position of `x` in `s`; an import listed twice keeps the name of its last position. */
  function LastIndex(s: seq<Import>, x: Import): (i: nat)
    requires x in s
    ensures i < |s| && s[i] == x && forall j :: i < j < |s| ==> s[j] != x
  {
    if s[|s| - 1] == x then |s| - 1 else LastIndex(s[..|s| - 1], x)
  }

  /** Generator.GetImports: names the imports "import1", "import2", … in order and returns the list. */
  method GetImports(imports: seq<Import>) returns (r: seq<Import>)
    modifies set x | x in imports
    ensures r == imports
    ensures forall x :: x in imports ==> x.uniqueName == Some(ImportName(LastIndex(imports, x)))
  {
    var counter := 0;
    while counter < |imports|
      invariant 0 <= counter <= |imports|
      invariant forall x :: x in imports[..counter] ==> x.uniqueName == Some(ImportName(LastIndex(imports[..counter], x)))
    {
      var each := imports[counter];
      each.uniqueName := Some(ImportName(counter));
      forall x | x in imports[..counter + 1]
        ensures LastIndex(imports[..counter + 1], x) == if x == each then counter else LastIndex(imports[..counter], x)
      {
        assert imports[..counter + 1][..counter] == imports[..counter];
      }
      counter := counter + 1;
    }
    assert imports[..counter] == imports;
    r := imports;
  }

  /** Distinct imports get pairwise distinct names, each naming its position. */
  lemma ImportNamesUnique(imports: seq<Import>, i: nat, j: nat)
    requires i < |imports| && j < |imports|
    requires forall a, b :: 0 <= a < b < |imports| ==> imports[a] != imports[b]
    ensures LastIndex(imports, imports[i]) == i
    ensures i != j ==> ImportName(LastIndex(imports, imports[i])) != ImportName(LastIndex(imports, imports[j]))
  {
    var li, lj := LastIndex(imports, imports[i]), LastIndex(imports, imports[j]);
    assert li == i;
    assert lj == j;
    ImportNamesDistinct(i, j);
  }
}
