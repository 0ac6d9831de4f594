# pprof profile builder

This is a Dafny model of the profile builder in `bindings/serialize.cc` of the
Cloud Profiler Node.js agent. The agent walks the V8 CPU profile tree (the heap profile is turned into
JavaScript objects instead and does not pass through this builder).
For each node it calls `Profile::addSample`, which assigns the node a location
and function. When the walk is done, `Profile::encode` writes the result as a
pprof `Profile` protocol buffer.

The model has five modules:

- `Wire` (wire.dfy): the Protocol Buffers primitives the encoder calls.
  - A message is a list of `Field` events. `Serialize` gives their bytes.
    Varints, tags and packed repeated fields follow the Protocol Buffers
    encoding guide.
  - `ParseFields` reads those bytes back.
  - Each primitive is a function saying which fields it emits, plus a method
    that appends its bytes to a buffer.
- `Entities` (entities.dfy): the value classes `ValueType`, `Label`, `Mapping`,
  `Line`, `ProfileFunction`, `ProfileLocation` and `Sample`, as datatypes.
  - Field widths are kept as `int64`/`uint64`.
  - Each `encode` routine is modelled by a field list, an appending method
    proved to write it, and a decoder with a round-trip lemma.
- `Interning` (interning.dfy): the discipline the three tables share.
  - A table is a sequence of keys plus a map from each key to its position.
  - `Intern` returns the id of a known key unchanged, or appends a new key
    with the next id.
- `ProfileMessage` (profile_message.dfy): the Profile message itself.
  - It covers the fourteen encoder calls of `Profile::encode`, their field
    numbers, order and elision rules.
  - A reader proves the message decodes back to the profile.
- `ProfileBuilder` (profile.dfy): the `Profile` class.
  - It has the source's fields (`function` is spelled `functions`) and a
    `Valid` invariant.
  - `StringID`, `FunctionID`, `LineOf`, `LocationID`, `AddSampleType`,
    `AddSample` and `Encode` are methods that update those fields.
  - The caller's `std::deque` stack is the class `LocationStack`.

The string table numbers from 0, and the constructor interns `""` first so
that it gets id 0. The function and location tables number from 1. The invariant
`Valid` states:

- Every id in a map is the position of its key.
- `functions[j].id == j + 1` and `location[i].id == i + 1`.
- Every location has mapping 0, address 0, is not folded, and has one line
  naming the function interned for its file and name.
- Every string id the profile itself holds (period type, drop and keep frames,
  sample types, function names and file names) indexes the string table.
  Label string ids inside samples come from the node and are not covered.

## Model

| member | source | states |
|---|---|---|
| Wire.ToUint64 | bindings/serialize.cc:80-81 | the unsigned value has the same 64 bits as the signed one (equal modulo 2^64) |
| Wire.ToInt64 | bindings/serialize.cc:80-81 | a `uint64_t` passed where an `int64_t` is expected keeps its bits: converting back gives the original |
| Wire.SignedUnsigned | bindings/serialize.cc:162 | reading packed signed values as unsigned and back gives the original values |
| Wire.VarintShape | bindings/serialize.cc:24-25 | a varint is never empty, and exactly its last byte has the high bit clear |
| Wire.VarintRoundTrip | bindings/serialize.cc:24-25 | reading a varint from its bytes gives its value and leaves what follows untouched |
| Wire.VarintAtMostTen | bindings/serialize.cc:24-25 | a 64-bit value takes at most ten bytes |
| Wire.SerializeAppend | bindings/serialize.cc:274-289 | the bytes of two field lists written one after the other are the bytes of their concatenation |
| Wire.ParseFieldRoundTrip | bindings/serialize.cc:24-25 | one written field reads back as itself, leaving the bytes after it |
| Wire.ParseSerialize | bindings/serialize.cc:273-290 | any written field list reads back as exactly that list |
| Wire.PackAppend | bindings/serialize.cc:161 | packing one more value appends its varint |
| Wire.PackedRoundTrip | bindings/serialize.cc:161-162 | a packed list of varints reads back as the same values |
| Wire.EncodeInt64Opt | bindings/serialize.cc:24-25 | appends the varint field only when the value is non-zero; otherwise the buffer is unchanged |
| Wire.EncodeUint64Opt | bindings/serialize.cc:76-79 | appends the varint field only when the value is non-zero |
| Wire.EncodeBoolOpt | bindings/serialize.cc:82-85 | appends field = 1 only when the flag is true |
| Wire.EncodeInt64 | bindings/serialize.cc:289 | always appends the varint field, zero included |
| Wire.EncodeUint64s | bindings/serialize.cc:161 | appends one packed field holding every value in order, or nothing for an empty list |
| Wire.EncodeInt64s | bindings/serialize.cc:162 | as EncodeUint64s, with each value's 64 bits read as unsigned |
| Wire.EncodeStrings | bindings/serialize.cc:279 | appends one length-delimited field per string, in order |
| Wire.EncodeRepeatedMessage | bindings/serialize.cc:274-278 | appends one length-delimited field per element, each carrying the element's own encoding |
| Wire.EncodeMessage | bindings/serialize.cc:284-286 | appends one length-delimited field carrying the message's encoding |
| Wire.WrittenAll | bindings/serialize.cc:274-289 | writing a list of field groups one after the other writes their concatenation |
| Entities.ValueTypeFields | bindings/serialize.cc:23-26 | a value type encodes to no fields exactly when both ids are zero |
| Entities.EncodeValueType | bindings/serialize.cc:23-26 | appends the bytes of type (field 1) and unit (field 2), each omitted when zero |
| Entities.ValueTypeRoundTrip | bindings/serialize.cc:23-26 | decoding the encoding gives the value type back |
| Entities.LabelFields | bindings/serialize.cc:43-48 | a label encodes to no fields exactly when all four values are zero |
| Entities.EncodeLabel | bindings/serialize.cc:43-48 | appends key, str, num and unit as fields 1-4, each omitted when zero |
| Entities.LabelRoundTrip | bindings/serialize.cc:43-48 | decoding the encoding gives the label back |
| Entities.MappingFields | bindings/serialize.cc:75-86 | a mapping encodes to no fields exactly when every number is zero and every flag false |
| Entities.EncodeMapping | bindings/serialize.cc:75-86 | appends fields 1-10 in order: four unsigned, two signed, four flags, each omitted when zero or false |
| Entities.MappingRoundTrip | bindings/serialize.cc:75-86 | decoding the encoding gives the mapping back |
| Entities.LineFields | bindings/serialize.cc:95-98 | a line encodes to no fields exactly when function id and line are zero |
| Entities.EncodeLine | bindings/serialize.cc:95-98 | appends function id (field 1) and line (field 2), each omitted when zero |
| Entities.LineRoundTrip | bindings/serialize.cc:95-98 | decoding the encoding gives the line back |
| Entities.FunctionFields | bindings/serialize.cc:115-121 | a function encodes to no fields exactly when all five values are zero |
| Entities.EncodeFunction | bindings/serialize.cc:115-121 | appends id, name, system name, filename and start line as fields 1-5, each omitted when zero |
| Entities.FunctionRoundTrip | bindings/serialize.cc:115-121 | decoding the encoding gives the function back |
| Entities.LocationFields | bindings/serialize.cc:142-148 | a location encodes to no fields exactly when it has zero id, mapping and address, no lines and is not folded |
| Entities.EncodeLocation | bindings/serialize.cc:142-148 | appends id, mapping id, address, one field 4 per line, and the folded flag |
| Entities.LocationRoundTrip | bindings/serialize.cc:142-148 | decoding the encoding gives the location back, its lines in order |
| Entities.SampleFields | bindings/serialize.cc:160-164 | a sample encodes to no fields exactly when it has no location ids, values or labels |
| Entities.EncodeSample | bindings/serialize.cc:160-164 | appends packed location ids (field 1), packed values (field 2) and one field 3 per label |
| Entities.SampleRoundTrip | bindings/serialize.cc:160-164 | decoding the encoding gives the sample back |
| Interning.Intern | bindings/serialize.cc:233-243 | a known key gets its stored id and the table is unchanged; a new key is appended and gets the next id; the table stays indexed and old ids are kept |
| Interning.IdsInjective | bindings/serialize.cc:233-243 | distinct keys of a table never share an id |
| Interning.InternIdempotent | bindings/serialize.cc:234-237 | interning the same key again returns the same id and changes nothing |
| Interning.InternAll | bindings/serialize.cc:174-177 | interning keys in order keeps the table indexed, only extends it, by at most one key per call, and keeps every old id |
| Interning.InternAllFour | bindings/serialize.cc:175-177 | four `Intern` calls in a row give the same table and ids as `InternAll` of the four keys |
| Interning.IdsKept | bindings/serialize.cc:234-242 | when a table only grows by appending, every key keeps the id it had |
| Interning.InternAllIds | bindings/serialize.cc:174-177 | every key of the list ends up in the table with the id returned for it |
| Interning.InternAllFreshKeys | bindings/serialize.cc:174-177 | distinct new keys are appended in order |
| Interning.InternAllFreshIds | bindings/serialize.cc:174-177 | distinct new keys get consecutive ids starting at the table size |
| Interning.InternAllStable | bindings/serialize.cc:174-177 | interning the same list again returns the same ids and changes nothing |
| Interning.InternAllKnown | bindings/serialize.cc:234-237 | interning keys that are all known leaves the table unchanged |
| ProfileMessage.GroupsNumbered | bindings/serialize.cc:274-289 | encoder call i writes only field number i + 1 |
| ProfileMessage.ProfileInFieldOrder | bindings/serialize.cc:274-289 | the profile's fields come out in non-decreasing field-number order, all numbered 1-14 |
| ProfileMessage.PeriodTypeElided | bindings/serialize.cc:284-286 | field 11 occurs once when the period type's type or unit id is non-zero, and never otherwise |
| ProfileMessage.DefaultSampleTypeAlwaysPresent | bindings/serialize.cc:289 | field 14 occurs exactly once, with the default sample type's value, even when it is 0 |
| ProfileMessage.ScalarsElided | bindings/serialize.cc:280-288 | fields 7, 8, 9, 10 and 12 occur once when their value is non-zero and never otherwise |
| ProfileMessage.RepeatedCounts | bindings/serialize.cc:274-289 | fields 1-6 occur once per sample type, sample, mapping, location, function and string; field 13 once when there are comments |
| ProfileMessage.EmptyProfileFields | bindings/serialize.cc:274-289 | an all-empty profile encodes to the single field 14 = 0 |
| ProfileMessage.EntityReadersReadBack | bindings/serialize.cc:274-278 | each nested message type's decoder reads back its encoding |
| ProfileMessage.SampleTypesRead | bindings/serialize.cc:274 | reading the field-1 group back, one field per element, rebuilds exactly the sample types, in order |
| ProfileMessage.SamplesRead | bindings/serialize.cc:275 | reading the field-2 group back rebuilds exactly the samples, in order |
| ProfileMessage.MappingsRead | bindings/serialize.cc:276 | reading the field-3 group back rebuilds exactly the mappings, in order |
| ProfileMessage.LocationsRead | bindings/serialize.cc:277 | reading the field-4 group back rebuilds exactly the locations, in order |
| ProfileMessage.FunctionsRead | bindings/serialize.cc:278 | reading the field-5 group back rebuilds exactly the functions, in order |
| ProfileMessage.StringsRead | bindings/serialize.cc:279 | reading the field-6 group back rebuilds exactly the string table, in order, the empty string included |
| ProfileMessage.ProfileRoundTrip | bindings/serialize.cc:273-290 | decoding the encoded profile gives every field back |
| ProfileBuilder.AddFunctionKeepsTables | bindings/serialize.cc:224-229 | appending a well-formed function under a new key, with id = size + 1, keeps all tables well-formed |
| ProfileBuilder.AddLocationKeepsTables | bindings/serialize.cc:201-207 | appending a well-formed location under a new key, with id = size + 1, keeps all tables well-formed |
| ProfileBuilder.EncodeTables | bindings/serialize.cc:274-279 | the first six calls append exactly the bytes of groups 1-6 |
| ProfileBuilder.EncodeScalars | bindings/serialize.cc:280-289 | the remaining eight calls append exactly the bytes of groups 7-14, with the period type only when one of its ids is non-zero |
| ProfileBuilder.LocationStack.PushFront | bindings/serialize.cc:189 | the id goes to the front of the stack and the rest is unchanged |
| ProfileBuilder.InternString | bindings/serialize.cc:233-243 | on a table's vector and map, is exactly `Intern`: the stored id of a known string, or id `strings.size()` with the string appended |
| ProfileBuilder.InternHeaderStrings | bindings/serialize.cc:173-177 | from an empty table, the string table is exactly that of interning `""`, period type, period unit, drop frames and keep frames in this order (at most five strings, `""` at id 0), and each returned id is that call's `Intern` id |
| ProfileBuilder.HeaderIsInternAll | bindings/serialize.cc:174-177 | the constructor's string table is `InternAll` of `""`, period type, period unit, drop frames and keep frames on an empty table, with ids `[0, type, unit, drop, keep]`, so the `InternAll` lemmas apply to it |
| ProfileBuilder.HeaderDistinct | bindings/serialize.cc:173-177 | when the four header strings are non-empty and pairwise distinct, the string table is `""` and then the four strings, with ids 1, 2, 3 and 4 |
| ProfileBuilder.Profile.constructor | bindings/serialize.cc:166-178 | the profile is valid; its string table is exactly the one `InternHeaderStrings` states (so at most five strings, `strings[0]` is `""`); period type, unit, drop and keep frames are ids of their strings; period, time and duration are as given; every other table is empty |
| ProfileBuilder.Profile.StringID | bindings/serialize.cc:233-243 | is `Intern` on the string table: a known string returns its id and nothing changes; a new one gets id `strings.size()` and is appended; afterwards `strings[id] == s` |
| ProfileBuilder.Profile.FunctionID | bindings/serialize.cc:215-231 | is `Intern` on the function table keyed by (file, name); a new function gets id `size + 1`, has name = system name, the node's name and filename as strings and the node's line as start line; earlier functions are unchanged |
| ProfileBuilder.Profile.LineOf | bindings/serialize.cc:211-213 | the line's function id is `Intern` of the node's (file, name) on the function table, and its line is the node's line number; a known function changes nothing, a new one is the node's function (`NewFunction`) |
| ProfileBuilder.Profile.LocationID | bindings/serialize.cc:194-209 | a known (file, line, column, name) key returns its id and changes nothing; a new key gets id `location.size() + 1` and appends a location with mapping 0, address 0, not folded and one line naming the node's function at the node's line; either way the location table changes as `Intern` of the node's key; the function table changes as `Intern` of the node's (file, name), a new function holding the node's name, filename and line; a known location changes nothing |
| ProfileBuilder.Profile.AddSampleType | bindings/serialize.cc:180-184 | interns type then unit and appends exactly one value type of those two ids; locations, functions and samples are unchanged |
| ProfileBuilder.Profile.AddSample | bindings/serialize.cc:186-192 | pushes the id the location table holds for the node onto the front of the stack, then appends the node's samples for that stack in order; the location table changes exactly as `Intern` of the node's (file, line, column, name) key, so a known key leaves the location, function and string tables unchanged; earlier samples and sample types are unchanged; each table only grows, by at most two strings, one function and one location, and every string, function and location keeps its id |
| ProfileBuilder.Profile.PushAndCollect | bindings/serialize.cc:189-191 | pushes the location id and appends the node's samples for the new stack |
| ProfileBuilder.Profile.Encode | bindings/serialize.cc:273-290 | appends exactly the Profile message of the current fields, whose properties are the `ProfileMessage` lemmas above |

## Left out

- `proto.h` is not part of this model. Its primitives are modelled from the
  Protocol Buffers encoding guide. Only the field numbers, order and elision
  at the call sites come from the source.
- `serialize.h` is not part of this model. `Node` is a datatype with the six
  members the builder uses. `Node::samples` is a function of the stack.
  - Its second argument, the profile itself, is not modelled. In the agent it
    may intern label strings; the model's `AddSample` assumes it does not
    change the profile.
- The getters (bindings/serialize.cc:245-271) are not modelled; the fields are
  read directly.
- The `std::map` insertion hint is modelled as a plain map update.
- `serializeTimeProfile`, the heap-profile walk and the V8 glue are not part
  of this model.
- The interning methods require each table to be smaller than 2^63 - 1 entries,
  so that ids fit an `int64_t`. The source does not check this; a vector
  cannot grow that large.
- In the constructor (bindings/serialize.cc:175), C++ does not fix the order
  in which `stringID(periodType)` and `stringID(periodUnit)` run. The model
  interns the type first. Both ids name their strings in either order.
- The ghost key sequences `functionKeys` and `locationKeys` exist only for the
  proofs. Their slot 0 is unused, because ids start at 1.
- The constructor's five `stringID` calls are made on the table's values by
  the module-level method `InternHeaderStrings` (through `InternString`),
  whose results the constructor then stores in its fields.
- `Mapping` and `Label` values are never created by the builder: `mapping`
  stays empty, and labels only arrive inside the node's samples. Only their
  encoding is modelled.
- ProfileBuilder.Profile.FunctionID: says of the string table only that it
  grows by at most two entries and that the new function's ids name the
  node's name and filename. It does not say in which order the two strings
  are appended.
- ProfileBuilder.Profile.LocationID: says of the string table only that it
  grows by at most two entries and that a new function's ids name the node's
  name and filename, not in which order the two strings are appended.
- ProfileBuilder.Profile.AddSample: for a node whose location is new, says
  only that the function and string tables grow by at most one function and
  two strings and keep their ids. It does not say which function and strings
  the new location brings; `LocationID` states that.
