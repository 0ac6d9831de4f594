/**
 * The value classes of a profile (ValueType, Label, Mapping, Line,
 * Function, Location, Sample) and their `encode` routines.
 *
 * Every class is a datatype with the same fields, of the same integer
 * widths, as in the source. Each `encode` routine is given three times:
 *   - `XFields`: which protobuf fields it emits, in which order;
 *   - `EncodeX`: a method appending those fields' bytes to a buffer,
 *     proved to produce `Serialize(XFields(x))`;
 *   - `DecodeX`: a proto3 reader for the same message, the partner that
 *     the round-trip lemma `XRoundTrip` ties to the encoding.
 * Where the source's encodeRepeatedMessage<T> calls T::encode on each
 * element, the model passes the function `XBytes`, which `EncodeX` is proved
 * to produce; the `EncodeX` methods themselves are not called.
 */
module Entities {
  import opened Wire

  // ---------------------------------------------------------------------------
  // Data model

  /** A sample type or a period type: string-table ids of its type and unit. */
  datatype ValueType = ValueType(typeX: int64, unitX: int64)

  /** A key/value label on a sample; the value is a string id or a number. */
  datatype Label = Label(keyX: int64, strX: int64, num: int64, unitX: int64)

  /** A mapped binary: address range, file offset and symbolization flags. */
  datatype Mapping = Mapping(
    id: uint64, start: uint64, limit: uint64, offset: uint64,
    fileX: uint64, buildIDX: uint64,
    hasFunctions: bool, hasFilenames: bool, hasLineNumbers: bool, hasInlineFrames: bool)

  /** One frame of a location: the function's id and a line in it. */
  datatype Line = Line(functionID: uint64, line: int64)

  /** A function: its id and the string ids of its names and file, and its start line. */
  datatype ProfileFunction = ProfileFunction(
    id: uint64, nameX: int64, systemNameX: int64, filenameX: int64, startLine: int64)

  /** A location: its id, mapping, address, the lines it stands for and whether it is folded. */
  datatype ProfileLocation = ProfileLocation(
    id: uint64, mappingID: uint64, address: uint64, line: seq<Line>, isFolded: bool)

  /** A sample: the stack as location ids (leaf first), its values and its labels. */
  datatype Sample = Sample(locationID: seq<uint64>, value: seq<int64>, labels: seq<Label>)

  // The value every field has in a freshly decoded message.
  const EmptyValueType := ValueType(0, 0)
  const EmptyLabel := Label(0, 0, 0, 0)
  const EmptyMapping := Mapping(0, 0, 0, 0, 0, 0, false, false, false, false)
  const EmptyLine := Line(0, 0)
  const EmptyFunction := ProfileFunction(0, 0, 0, 0, 0)
  const EmptyLocation := ProfileLocation(0, 0, 0, [], false)
  const EmptySample := Sample([], [], [])

  // ---------------------------------------------------------------------------
  // ValueType

  /** ValueType::encode: type as field 1, unit as field 2, each omitted when zero. */
  function ValueTypeFields(v: ValueType): (r: seq<Field>)
    ensures r == [] <==> v == EmptyValueType
  {
    Int64Opt(1, v.typeX) + Int64Opt(2, v.unitX)
  }

  function ValueTypeBytes(v: ValueType): Bytes
  {
    Serialize(ValueTypeFields(v))
  }

  method EncodeValueType(v: ValueType, buf: Bytes) returns (out: Bytes)
    ensures out == buf + ValueTypeBytes(v)
  {
    out := EncodeInt64Opt(1, v.typeX, buf);
    out := EncodeInt64Opt(2, v.unitX, out);
    SerializeAppend(Int64Opt(1, v.typeX), Int64Opt(2, v.unitX));
    AppendAssoc(buf, Serialize(Int64Opt(1, v.typeX)), Serialize(Int64Opt(2, v.unitX)));
  }

  function ValueTypeStep(v: ValueType, f: Field): Option<ValueType>
  {
    Some(
      match f
      case VarintField(n, x) =>
        if n == 1 then v.(typeX := ToInt64(x))
        else if n == 2 then v.(unitX := ToInt64(x))
        else v
      case BytesField(_, _) => v)
  }

  /** Reads a ValueType message; fields it does not know are skipped. */
  function DecodeValueType(bs: Bytes): Option<ValueType>
  {
    DecodeMessage(bs, EmptyValueType, ValueTypeStep)
  }

  /** Decoding the encoded bytes gives the message back. */
  lemma ValueTypeRoundTrip(v: ValueType)
    ensures DecodeValueType(ValueTypeBytes(v)) == Some(v)
  {
    ValueTypeFold(v);
    DecodeSerialized(ValueTypeFields(v), EmptyValueType, v, ValueTypeStep);
  }

  lemma ValueTypeFold(v: ValueType)
    ensures FoldFields(ValueTypeFields(v), EmptyValueType, ValueTypeStep) == Some(v)
  {
    var a1 := EmptyValueType.(typeX := v.typeX);
    assert FoldFields(Int64Opt(1, v.typeX), EmptyValueType, ValueTypeStep) == Some(a1);
    FoldThen(Int64Opt(1, v.typeX), Int64Opt(2, v.unitX), EmptyValueType, a1, ValueTypeStep);
  }

  // ---------------------------------------------------------------------------
  // Label

  /** Label::encode: key, str, num and unit as fields 1 to 4, each omitted when zero. */
  function LabelFields(l: Label): (r: seq<Field>)
    ensures r == [] <==> l == EmptyLabel
  {
    Int64Opt(1, l.keyX) + Int64Opt(2, l.strX) + Int64Opt(3, l.num) + Int64Opt(4, l.unitX)
  }

  function LabelBytes(l: Label): Bytes
  {
    Serialize(LabelFields(l))
  }

  method EncodeLabel(l: Label, buf: Bytes) returns (out: Bytes)
    ensures out == buf + LabelBytes(l)
  {
    var g1, g2, g3, g4 := Int64Opt(1, l.keyX), Int64Opt(2, l.strX), Int64Opt(3, l.num), Int64Opt(4, l.unitX);
    out := EncodeInt64Opt(1, l.keyX, buf);
    out := EncodeInt64Opt(2, l.strX, out);
    SerializeAppend(g1, g2);
    AppendAssoc(buf, Serialize(g1), Serialize(g2));
    out := EncodeInt64Opt(3, l.num, out);
    SerializeAppend(g1 + g2, g3);
    AppendAssoc(buf, Serialize(g1 + g2), Serialize(g3));
    out := EncodeInt64Opt(4, l.unitX, out);
    SerializeAppend(g1 + g2 + g3, g4);
    AppendAssoc(buf, Serialize(g1 + g2 + g3), Serialize(g4));
  }

  function LabelStep(l: Label, f: Field): Option<Label>
  {
    Some(
      match f
      case VarintField(n, x) =>
        if n == 1 then l.(keyX := ToInt64(x))
        else if n == 2 then l.(strX := ToInt64(x))
        else if n == 3 then l.(num := ToInt64(x))
        else if n == 4 then l.(unitX := ToInt64(x))
        else l
      case BytesField(_, _) => l)
  }

  /** Reads a Label message; fields it does not know are skipped. */
  function DecodeLabel(bs: Bytes): Option<Label>
  {
    DecodeMessage(bs, EmptyLabel, LabelStep)
  }

  /** Decoding the encoded bytes gives the message back. */
  lemma LabelRoundTrip(l: Label)
    ensures DecodeLabel(LabelBytes(l)) == Some(l)
  {
    LabelFold(l);
    DecodeSerialized(LabelFields(l), EmptyLabel, l, LabelStep);
  }

  lemma LabelFold(l: Label)
    ensures FoldFields(LabelFields(l), EmptyLabel, LabelStep) == Some(l)
  {
    var g1, g2, g3, g4 := Int64Opt(1, l.keyX), Int64Opt(2, l.strX), Int64Opt(3, l.num), Int64Opt(4, l.unitX);
    var a1 := EmptyLabel.(keyX := l.keyX);
    var a2 := a1.(strX := l.strX);
    var a3 := a2.(num := l.num);
    assert FoldFields(g1, EmptyLabel, LabelStep) == Some(a1);
    FoldThen(g1, g2, EmptyLabel, a1, LabelStep);
    assert FoldFields(g2, a1, LabelStep) == Some(a2);
    FoldThen(g1 + g2, g3, EmptyLabel, a2, LabelStep);
    assert FoldFields(g3, a2, LabelStep) == Some(a3);
    FoldThen(g1 + g2 + g3, g4, EmptyLabel, a3, LabelStep);
    assert FoldFields(g4, a3, LabelStep) == Some(l);
  }

  // ---------------------------------------------------------------------------
  // Mapping

  /**
   * Mapping::encode: the four address fields as 1 to 4, the filename and
   * build id (held as uint64, written as int64) as 5 and 6, the four flags as
   * 7 to 10; every field omitted when zero or false.
   */
  function MappingFields(m: Mapping): (r: seq<Field>)
    ensures r == [] <==> m == EmptyMapping
  {
    Uint64Opt(1, m.id) + Uint64Opt(2, m.start) + Uint64Opt(3, m.limit)
    + Uint64Opt(4, m.offset) + Int64Opt(5, ToInt64(m.fileX)) + Int64Opt(6, ToInt64(m.buildIDX))
    + BoolOpt(7, m.hasFunctions) + BoolOpt(8, m.hasFilenames) + BoolOpt(9, m.hasLineNumbers)
    + BoolOpt(10, m.hasInlineFrames)
  }

  function MappingBytes(m: Mapping): Bytes
  {
    Serialize(MappingFields(m))
  }

  method EncodeMapping(m: Mapping, buf: Bytes) returns (out: Bytes)
    ensures out == buf + MappingBytes(m)
  {
    var acc: seq<Field> := [];
    out := buf;
    var g := Uint64Opt(1, m.id);
    out := EncodeUint64Opt(1, m.id, out);
    SerializeJoin(buf, acc, g);
    acc := acc + g;
    g := Uint64Opt(2, m.start);
    out := EncodeUint64Opt(2, m.start, out);
    SerializeJoin(buf, acc, g);
    acc := acc + g;
    g := Uint64Opt(3, m.limit);
    out := EncodeUint64Opt(3, m.limit, out);
    SerializeJoin(buf, acc, g);
    acc := acc + g;
    g := Uint64Opt(4, m.offset);
    out := EncodeUint64Opt(4, m.offset, out);
    SerializeJoin(buf, acc, g);
    acc := acc + g;
    g := Int64Opt(5, ToInt64(m.fileX));
    out := EncodeInt64Opt(5, ToInt64(m.fileX), out);
    SerializeJoin(buf, acc, g);
    acc := acc + g;
    g := Int64Opt(6, ToInt64(m.buildIDX));
    out := EncodeInt64Opt(6, ToInt64(m.buildIDX), out);
    SerializeJoin(buf, acc, g);
    acc := acc + g;
    g := BoolOpt(7, m.hasFunctions);
    out := EncodeBoolOpt(7, m.hasFunctions, out);
    SerializeJoin(buf, acc, g);
    acc := acc + g;
    g := BoolOpt(8, m.hasFilenames);
    out := EncodeBoolOpt(8, m.hasFilenames, out);
    SerializeJoin(buf, acc, g);
    acc := acc + g;
    g := BoolOpt(9, m.hasLineNumbers);
    out := EncodeBoolOpt(9, m.hasLineNumbers, out);
    SerializeJoin(buf, acc, g);
    acc := acc + g;
    g := BoolOpt(10, m.hasInlineFrames);
    out := EncodeBoolOpt(10, m.hasInlineFrames, out);
    SerializeJoin(buf, acc, g);
    acc := acc + g;
    assert acc == [] + Uint64Opt(1, m.id) + Uint64Opt(2, m.start) + Uint64Opt(3, m.limit)
      + Uint64Opt(4, m.offset) + Int64Opt(5, ToInt64(m.fileX)) + Int64Opt(6, ToInt64(m.buildIDX))
      + BoolOpt(7, m.hasFunctions) + BoolOpt(8, m.hasFilenames) + BoolOpt(9, m.hasLineNumbers)
      + BoolOpt(10, m.hasInlineFrames);
    assert [] + Uint64Opt(1, m.id) == Uint64Opt(1, m.id);
  }

  function MappingStep(m: Mapping, f: Field): Option<Mapping>
  {
    Some(
      match f
      case VarintField(n, x) =>
        if n == 1 then m.(id := x)
        else if n == 2 then m.(start := x)
        else if n == 3 then m.(limit := x)
        else if n == 4 then m.(offset := x)
        else if n == 5 then m.(fileX := x)
        else if n == 6 then m.(buildIDX := x)
        else if n == 7 then m.(hasFunctions := x != 0)
        else if n == 8 then m.(hasFilenames := x != 0)
        else if n == 9 then m.(hasLineNumbers := x != 0)
        else if n == 10 then m.(hasInlineFrames := x != 0)
        else m
      case BytesField(_, _) => m)
  }

  /** Reads a Mapping message; fields it does not know are skipped. */
  function DecodeMapping(bs: Bytes): Option<Mapping>
  {
    DecodeMessage(bs, EmptyMapping, MappingStep)
  }

  /** Decoding the encoded bytes gives the message back. */
  lemma MappingRoundTrip(m: Mapping)
    ensures DecodeMapping(MappingBytes(m)) == Some(m)
  {
    MappingFold(m);
    DecodeSerialized(MappingFields(m), EmptyMapping, m, MappingStep);
  }

  lemma MappingFold(m: Mapping)
    ensures FoldFields(MappingFields(m), EmptyMapping, MappingStep) == Some(m)
  {
    var head := Uint64Opt(1, m.id) + Uint64Opt(2, m.start) + Uint64Opt(3, m.limit)
      + Uint64Opt(4, m.offset) + Int64Opt(5, ToInt64(m.fileX)) + Int64Opt(6, ToInt64(m.buildIDX));
    var mid := EmptyMapping.(id := m.id, start := m.start, limit := m.limit,
      offset := m.offset, fileX := m.fileX, buildIDX := m.buildIDX);
    MappingFoldNumbers(m);
    var p := head;
    FoldThen(p, BoolOpt(7, m.hasFunctions), EmptyMapping, mid, MappingStep);
    var a7 := mid.(hasFunctions := m.hasFunctions);
    assert FoldFields(BoolOpt(7, m.hasFunctions), mid, MappingStep) == Some(a7);
    p := p + BoolOpt(7, m.hasFunctions);
    FoldThen(p, BoolOpt(8, m.hasFilenames), EmptyMapping, a7, MappingStep);
    var a8 := a7.(hasFilenames := m.hasFilenames);
    assert FoldFields(BoolOpt(8, m.hasFilenames), a7, MappingStep) == Some(a8);
    p := p + BoolOpt(8, m.hasFilenames);
    FoldThen(p, BoolOpt(9, m.hasLineNumbers), EmptyMapping, a8, MappingStep);
    var a9 := a8.(hasLineNumbers := m.hasLineNumbers);
    assert FoldFields(BoolOpt(9, m.hasLineNumbers), a8, MappingStep) == Some(a9);
    p := p + BoolOpt(9, m.hasLineNumbers);
    FoldThen(p, BoolOpt(10, m.hasInlineFrames), EmptyMapping, a9, MappingStep);
    assert FoldFields(BoolOpt(10, m.hasInlineFrames), a9, MappingStep) == Some(m);
  }

  /** The numeric fields 1 to 6 of a Mapping, read back from the empty message. */
  lemma MappingFoldNumbers(m: Mapping)
    ensures FoldFields(Uint64Opt(1, m.id) + Uint64Opt(2, m.start) + Uint64Opt(3, m.limit)
      + Uint64Opt(4, m.offset) + Int64Opt(5, ToInt64(m.fileX)) + Int64Opt(6, ToInt64(m.buildIDX)),
      EmptyMapping, MappingStep)
      == Some(EmptyMapping.(id := m.id, start := m.start, limit := m.limit,
        offset := m.offset, fileX := m.fileX, buildIDX := m.buildIDX))
  {
    var g1, g2, g3 := Uint64Opt(1, m.id), Uint64Opt(2, m.start), Uint64Opt(3, m.limit);
    var g4, g5, g6 := Uint64Opt(4, m.offset), Int64Opt(5, ToInt64(m.fileX)), Int64Opt(6, ToInt64(m.buildIDX));
    var a1 := EmptyMapping.(id := m.id);
    var a2 := a1.(start := m.start);
    var a3 := a2.(limit := m.limit);
    var a4 := a3.(offset := m.offset);
    var a5 := a4.(fileX := m.fileX);
    assert FoldFields(g1, EmptyMapping, MappingStep) == Some(a1);
    FoldThen(g1, g2, EmptyMapping, a1, MappingStep);
    assert FoldFields(g2, a1, MappingStep) == Some(a2);
    FoldThen(g1 + g2, g3, EmptyMapping, a2, MappingStep);
    assert FoldFields(g3, a2, MappingStep) == Some(a3);
    FoldThen(g1 + g2 + g3, g4, EmptyMapping, a3, MappingStep);
    assert FoldFields(g4, a3, MappingStep) == Some(a4);
    FoldThen(g1 + g2 + g3 + g4, g5, EmptyMapping, a4, MappingStep);
    assert FoldFields(g5, a4, MappingStep) == Some(a5);
    FoldThen(g1 + g2 + g3 + g4 + g5, g6, EmptyMapping, a5, MappingStep);
    assert FoldFields(g6, a5, MappingStep) == Some(a5.(buildIDX := m.buildIDX));
  }

  // ---------------------------------------------------------------------------
  // Line

  /** Line::encode: the function id as field 1 and the line as field 2, each omitted when zero. */
  function LineFields(l: Line): (r: seq<Field>)
    ensures r == [] <==> l == EmptyLine
  {
    Uint64Opt(1, l.functionID) + Int64Opt(2, l.line)
  }

  function LineBytes(l: Line): Bytes
  {
    Serialize(LineFields(l))
  }

  method EncodeLine(l: Line, buf: Bytes) returns (out: Bytes)
    ensures out == buf + LineBytes(l)
  {
    out := EncodeUint64Opt(1, l.functionID, buf);
    out := EncodeInt64Opt(2, l.line, out);
    SerializeAppend(Uint64Opt(1, l.functionID), Int64Opt(2, l.line));
    AppendAssoc(buf, Serialize(Uint64Opt(1, l.functionID)), Serialize(Int64Opt(2, l.line)));
  }

  function LineStep(l: Line, f: Field): Option<Line>
  {
    Some(
      match f
      case VarintField(n, x) =>
        if n == 1 then l.(functionID := x)
        else if n == 2 then l.(line := ToInt64(x))
        else l
      case BytesField(_, _) => l)
  }

  /** Reads a Line message; fields it does not know are skipped. */
  function DecodeLine(bs: Bytes): Option<Line>
  {
    DecodeMessage(bs, EmptyLine, LineStep)
  }

  /** Decoding the encoded bytes gives the message back. */
  lemma LineRoundTrip(l: Line)
    ensures DecodeLine(LineBytes(l)) == Some(l)
  {
    LineFold(l);
    DecodeSerialized(LineFields(l), EmptyLine, l, LineStep);
  }

  lemma LineFold(l: Line)
    ensures FoldFields(LineFields(l), EmptyLine, LineStep) == Some(l)
  {
    var a1 := EmptyLine.(functionID := l.functionID);
    assert FoldFields(Uint64Opt(1, l.functionID), EmptyLine, LineStep) == Some(a1);
    FoldThen(Uint64Opt(1, l.functionID), Int64Opt(2, l.line), EmptyLine, a1, LineStep);
  }

  // ---------------------------------------------------------------------------
  // Function

  /** ProfileFunction::encode: id as field 1, then name, system name, filename and start line as 2 to 5. */
  function FunctionFields(fn: ProfileFunction): (r: seq<Field>)
    ensures r == [] <==> fn == EmptyFunction
  {
    Uint64Opt(1, fn.id) + Int64Opt(2, fn.nameX) + Int64Opt(3, fn.systemNameX)
    + Int64Opt(4, fn.filenameX) + Int64Opt(5, fn.startLine)
  }

  function FunctionBytes(fn: ProfileFunction): Bytes
  {
    Serialize(FunctionFields(fn))
  }

  method EncodeFunction(fn: ProfileFunction, buf: Bytes) returns (out: Bytes)
    ensures out == buf + FunctionBytes(fn)
  {
    var acc: seq<Field> := [];
    out := buf;
    var g := Uint64Opt(1, fn.id);
    out := EncodeUint64Opt(1, fn.id, out);
    SerializeJoin(buf, acc, g);
    acc := acc + g;
    g := Int64Opt(2, fn.nameX);
    out := EncodeInt64Opt(2, fn.nameX, out);
    SerializeJoin(buf, acc, g);
    acc := acc + g;
    g := Int64Opt(3, fn.systemNameX);
    out := EncodeInt64Opt(3, fn.systemNameX, out);
    SerializeJoin(buf, acc, g);
    acc := acc + g;
    g := Int64Opt(4, fn.filenameX);
    out := EncodeInt64Opt(4, fn.filenameX, out);
    SerializeJoin(buf, acc, g);
    acc := acc + g;
    g := Int64Opt(5, fn.startLine);
    out := EncodeInt64Opt(5, fn.startLine, out);
    SerializeJoin(buf, acc, g);
    acc := acc + g;
    assert acc == [] + Uint64Opt(1, fn.id) + Int64Opt(2, fn.nameX) + Int64Opt(3, fn.systemNameX)
      + Int64Opt(4, fn.filenameX) + Int64Opt(5, fn.startLine);
    assert [] + Uint64Opt(1, fn.id) == Uint64Opt(1, fn.id);
  }

  function FunctionStep(fn: ProfileFunction, f: Field): Option<ProfileFunction>
  {
    Some(
      match f
      case VarintField(n, x) =>
        if n == 1 then fn.(id := x)
        else if n == 2 then fn.(nameX := ToInt64(x))
        else if n == 3 then fn.(systemNameX := ToInt64(x))
        else if n == 4 then fn.(filenameX := ToInt64(x))
        else if n == 5 then fn.(startLine := ToInt64(x))
        else fn
      case BytesField(_, _) => fn)
  }

  /** Reads a Function message; fields it does not know are skipped. */
  function DecodeFunction(bs: Bytes): Option<ProfileFunction>
  {
    DecodeMessage(bs, EmptyFunction, FunctionStep)
  }

  /** Decoding the encoded bytes gives the message back. */
  lemma FunctionRoundTrip(fn: ProfileFunction)
    ensures DecodeFunction(FunctionBytes(fn)) == Some(fn)
  {
    FunctionFold(fn);
    DecodeSerialized(FunctionFields(fn), EmptyFunction, fn, FunctionStep);
  }

  lemma FunctionFold(fn: ProfileFunction)
    ensures FoldFields(FunctionFields(fn), EmptyFunction, FunctionStep) == Some(fn)
  {
    var g1, g2, g3, g4, g5 := Uint64Opt(1, fn.id), Int64Opt(2, fn.nameX), Int64Opt(3, fn.systemNameX),
      Int64Opt(4, fn.filenameX), Int64Opt(5, fn.startLine);
    var a1 := EmptyFunction.(id := fn.id);
    var a2 := a1.(nameX := fn.nameX);
    var a3 := a2.(systemNameX := fn.systemNameX);
    var a4 := a3.(filenameX := fn.filenameX);
    assert FoldFields(g1, EmptyFunction, FunctionStep) == Some(a1);
    FoldThen(g1, g2, EmptyFunction, a1, FunctionStep);
    assert FoldFields(g2, a1, FunctionStep) == Some(a2);
    FoldThen(g1 + g2, g3, EmptyFunction, a2, FunctionStep);
    assert FoldFields(g3, a2, FunctionStep) == Some(a3);
    FoldThen(g1 + g2 + g3, g4, EmptyFunction, a3, FunctionStep);
    assert FoldFields(g4, a3, FunctionStep) == Some(a4);
    FoldThen(g1 + g2 + g3 + g4, g5, EmptyFunction, a4, FunctionStep);
    assert FoldFields(g5, a4, FunctionStep) == Some(fn);
  }

  // ---------------------------------------------------------------------------
  // Location

  /**
   * ProfileLocation::encode: id as field 1, mapping id and address (held as
   * uint64, written as int64) as 2 and 3, every line as its own field 4, and
   * the folded flag as 5.
   */
  function LocationFields(loc: ProfileLocation): (r: seq<Field>)
    ensures r == [] <==> loc == EmptyLocation
  {
    Uint64Opt(1, loc.id) + Int64Opt(2, ToInt64(loc.mappingID)) + Int64Opt(3, ToInt64(loc.address))
    + RepeatedMessage(4, loc.line, LineBytes) + BoolOpt(5, loc.isFolded)
  }

  function LocationBytes(loc: ProfileLocation): Bytes
  {
    Serialize(LocationFields(loc))
  }

  method EncodeLocation(loc: ProfileLocation, buf: Bytes) returns (out: Bytes)
    ensures out == buf + LocationBytes(loc)
  {
    var acc: seq<Field> := [];
    out := buf;
    var g := Uint64Opt(1, loc.id);
    out := EncodeUint64Opt(1, loc.id, out);
    SerializeJoin(buf, acc, g);
    acc := acc + g;
    g := Int64Opt(2, ToInt64(loc.mappingID));
    out := EncodeInt64Opt(2, ToInt64(loc.mappingID), out);
    SerializeJoin(buf, acc, g);
    acc := acc + g;
    g := Int64Opt(3, ToInt64(loc.address));
    out := EncodeInt64Opt(3, ToInt64(loc.address), out);
    SerializeJoin(buf, acc, g);
    acc := acc + g;
    g := RepeatedMessage(4, loc.line, LineBytes);
    out := EncodeRepeatedMessage(4, loc.line, LineBytes, out);
    SerializeJoin(buf, acc, g);
    acc := acc + g;
    g := BoolOpt(5, loc.isFolded);
    out := EncodeBoolOpt(5, loc.isFolded, out);
    SerializeJoin(buf, acc, g);
    acc := acc + g;
    assert acc == [] + Uint64Opt(1, loc.id) + Int64Opt(2, ToInt64(loc.mappingID)) + Int64Opt(3, ToInt64(loc.address))
      + RepeatedMessage(4, loc.line, LineBytes) + BoolOpt(5, loc.isFolded);
    assert [] + Uint64Opt(1, loc.id) == Uint64Opt(1, loc.id);
  }

  /** A line field is decoded as a Line message and appended; a malformed one fails the whole message. */
  function LocationStep(loc: ProfileLocation, f: Field): Option<ProfileLocation>
  {
    match f
    case VarintField(n, x) =>
      Some(
        if n == 1 then loc.(id := x)
        else if n == 2 then loc.(mappingID := x)
        else if n == 3 then loc.(address := x)
        else if n == 5 then loc.(isFolded := x != 0)
        else loc)
    case BytesField(n, p) =>
      if n == 4 then
        match DecodeLine(p)
        case None => None
        case Some(l) => Some(loc.(line := loc.line + [l]))
      else Some(loc)
  }

  /** Reads a Location message; fields it does not know are skipped. */
  function DecodeLocation(bs: Bytes): Option<ProfileLocation>
  {
    DecodeMessage(bs, EmptyLocation, LocationStep)
  }

  /** Reading the line fields appends exactly the encoded lines. */
  lemma LocationLines(lines: seq<Line>, acc: ProfileLocation)
    requires acc.line == []
    ensures FoldFields(RepeatedMessage(4, lines, LineBytes), acc, LocationStep) == Some(acc.(line := lines))
  {
    var fs := RepeatedMessage(4, lines, LineBytes);
    var accs := seq(|lines| + 1, i requires 0 <= i <= |lines| => acc.(line := lines[..i]));
    forall i | 0 <= i < |fs|
      ensures LocationStep(accs[i], fs[i]) == Some(accs[i + 1])
    {
      LineRoundTrip(lines[i]);
      assert lines[..i] + [lines[i]] == lines[..i + 1];
    }
    FoldEach(fs, accs, LocationStep);
    assert acc.(line := lines[..0]) == acc;
    assert lines[..|lines|] == lines;
  }

  /** Decoding the encoded bytes gives the message back. */
  lemma LocationRoundTrip(loc: ProfileLocation)
    ensures DecodeLocation(LocationBytes(loc)) == Some(loc)
  {
    LocationFold(loc);
    DecodeSerialized(LocationFields(loc), EmptyLocation, loc, LocationStep);
  }

  lemma LocationFold(loc: ProfileLocation)
    ensures FoldFields(LocationFields(loc), EmptyLocation, LocationStep) == Some(loc)
  {
    var g1, g2, g3 := Uint64Opt(1, loc.id), Int64Opt(2, ToInt64(loc.mappingID)), Int64Opt(3, ToInt64(loc.address));
    var g4, g5 := RepeatedMessage(4, loc.line, LineBytes), BoolOpt(5, loc.isFolded);
    var a1 := EmptyLocation.(id := loc.id);
    var a2 := a1.(mappingID := loc.mappingID);
    var a3 := a2.(address := loc.address);
    var a4 := a3.(line := loc.line);
    assert FoldFields(g1, EmptyLocation, LocationStep) == Some(a1);
    FoldThen(g1, g2, EmptyLocation, a1, LocationStep);
    assert FoldFields(g2, a1, LocationStep) == Some(a2);
    FoldThen(g1 + g2, g3, EmptyLocation, a2, LocationStep);
    assert FoldFields(g3, a2, LocationStep) == Some(a3);
    FoldThen(g1 + g2 + g3, g4, EmptyLocation, a3, LocationStep);
    LocationLines(loc.line, a3);
    FoldThen(g1 + g2 + g3 + g4, g5, EmptyLocation, a4, LocationStep);
    assert FoldFields(g5, a4, LocationStep) == Some(loc);
  }

  // ---------------------------------------------------------------------------
  // Sample

  /**
   * Sample::encode: the location ids packed as field 1, the values packed as
   * field 2 (each omitted when empty), and every label as its own field 3.
   */
  function SampleFields(s: Sample): (r: seq<Field>)
    ensures r == [] <==> s == EmptySample
  {
    PackedUint64s(1, s.locationID) + PackedInt64s(2, s.value) + RepeatedMessage(3, s.labels, LabelBytes)
  }

  function SampleBytes(s: Sample): Bytes
  {
    Serialize(SampleFields(s))
  }

  method EncodeSample(s: Sample, buf: Bytes) returns (out: Bytes)
    ensures out == buf + SampleBytes(s)
  {
    var g1, g2, g3 := PackedUint64s(1, s.locationID), PackedInt64s(2, s.value), RepeatedMessage(3, s.labels, LabelBytes);
    out := EncodeUint64s(1, s.locationID, buf);
    out := EncodeInt64s(2, s.value, out);
    SerializeAppend(g1, g2);
    AppendAssoc(buf, Serialize(g1), Serialize(g2));
    out := EncodeRepeatedMessage(3, s.labels, LabelBytes, out);
    SerializeAppend(g1 + g2, g3);
    AppendAssoc(buf, Serialize(g1 + g2), Serialize(g3));
  }

  /** Packed fields are appended to what was read so far, as proto3 readers do. */
  function SampleStep(s: Sample, f: Field): Option<Sample>
  {
    match f
    case VarintField(_, _) => Some(s)
    case BytesField(n, p) =>
      if n == 1 then
        match ParsePacked(p)
        case None => None
        case Some(vs) => Some(s.(locationID := s.locationID + vs))
      else if n == 2 then
        match ParsePacked(p)
        case None => None
        case Some(vs) => Some(s.(value := s.value + Signed(vs)))
      else if n == 3 then
        match DecodeLabel(p)
        case None => None
        case Some(l) => Some(s.(labels := s.labels + [l]))
      else Some(s)
  }

  /** Reads a Sample message; fields it does not know are skipped. */
  function DecodeSample(bs: Bytes): Option<Sample>
  {
    DecodeMessage(bs, EmptySample, SampleStep)
  }

  lemma SampleLabelStep(acc: Sample, labels: seq<Label>, i: nat)
    requires i < |labels|
    ensures SampleStep(acc.(labels := labels[..i]), BytesField(3, LabelBytes(labels[i])))
         == Some(acc.(labels := labels[..i + 1]))
  {
    var before := acc.(labels := labels[..i]);
    LabelRoundTrip(labels[i]);
    assert SampleStep(before, BytesField(3, LabelBytes(labels[i]))) == Some(before.(labels := labels[..i] + [labels[i]]));
    assert labels[..i] + [labels[i]] == labels[..i + 1];
  }

  /** Reading the label fields appends exactly the encoded labels. */
  lemma SampleLabels(labels: seq<Label>, acc: Sample)
    requires acc.labels == []
    ensures FoldFields(RepeatedMessage(3, labels, LabelBytes), acc, SampleStep) == Some(acc.(labels := labels))
  {
    var fs := RepeatedMessage(3, labels, LabelBytes);
    var accs := seq(|labels| + 1, i requires 0 <= i <= |labels| => acc.(labels := labels[..i]));
    forall i | 0 <= i < |fs|
      ensures SampleStep(accs[i], fs[i]) == Some(accs[i + 1])
    {
      SampleLabelStep(acc, labels, i);
    }
    FoldEach(fs, accs, SampleStep);
    assert acc.(labels := labels[..0]) == acc;
    assert labels[..|labels|] == labels;
  }

  /** Decoding the encoded bytes gives the message back. */
  lemma SampleRoundTrip(s: Sample)
    ensures DecodeSample(SampleBytes(s)) == Some(s)
  {
    SampleFold(s);
    DecodeSerialized(SampleFields(s), EmptySample, s, SampleStep);
  }

  lemma SampleFold(s: Sample)
    ensures FoldFields(SampleFields(s), EmptySample, SampleStep) == Some(s)
  {
    var g1, g2, g3 := PackedUint64s(1, s.locationID), PackedInt64s(2, s.value), RepeatedMessage(3, s.labels, LabelBytes);
    var a1 := EmptySample.(locationID := s.locationID);
    var a2 := a1.(value := s.value);
    PackedRoundTrip(s.locationID);
    assert [] + s.locationID == s.locationID;
    assert FoldFields(g1, EmptySample, SampleStep) == Some(a1);
    FoldThen(g1, g2, EmptySample, a1, SampleStep);
    PackedRoundTrip(Unsigned(s.value));
    SignedUnsigned(s.value);
    assert [] + s.value == s.value;
    assert FoldFields(g2, a1, SampleStep) == Some(a2);
    FoldThen(g1 + g2, g3, EmptySample, a2, SampleStep);
    SampleLabels(s.labels, a2);
  }
}
