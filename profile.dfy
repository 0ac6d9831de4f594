/**
 * The `Profile` class of bindings/serialize.cc: a builder that interns
 * strings, functions and locations into dense tables and collects samples,
 * then writes itself out as a pprof Profile message.
 *
 * Every table is kept as the source keeps it (a vector plus a map from key
 * to id); ghost key sequences record which key each function and location
 * was created for. `StringID` and `FunctionID` are proved to behave as the
 * pure `Interning.Intern` on their tables, and so is `LocationID`, which also
 * states the two outcomes of its lookup separately (`Interning.InternByCases`
 * joins them). `Valid` ties the tables together.
 */
module ProfileBuilder {
  import opened Wire
  import opened Entities
  import opened Interning
  import opened ProfileMessage

  /**
   * The profiler's node collaborator. Its header is not part of this model;
   * its accessors are taken to return 64-bit integers and byte strings, and
   * `samples` maps the current stack of location ids to the samples the
   * node contributes.
   */
  datatype Node = Node(
    fileID: int64,
    lineNumber: int64,
    columnNumber: int64,
    name: Bytes,
    filename: Bytes,
    samples: seq<uint64> -> seq<Sample>)

  /** Locations are shared between nodes of the same file, line, column and name. */
  datatype LocationKey = LocationKey(fileID: int64, line: int64, column: int64, name: Bytes)

  /** Functions are shared between nodes of the same file and name. */
  datatype FunctionKey = FunctionKey(fileID: int64, name: Bytes)

  function LocationKeyOf(node: Node): LocationKey
  {
    LocationKey(node.fileID, node.lineNumber, node.columnNumber, node.name)
  }

  function FunctionKeyOf(node: Node): FunctionKey
  {
    FunctionKey(node.fileID, node.name)
  }

  /** The function a location's single line refers to. */
  function FunctionOfLocation(key: LocationKey): FunctionKey
  {
    FunctionKey(key.fileID, key.name)
  }

  /** Table ids are int64 values; a table can hold at most this many entries. */
  const MAX_ENTRIES := TWO_63 - 1

  /** `x` is the id of an entry of the string table. */
  ghost predicate StringIndex(x: int64, strings: seq<Bytes>)
  {
    0 <= x < |strings|
  }

  /** The function with id `id`: its name doubles as its system name, and both string ids are interned. */
  ghost predicate FunctionEntry(f: ProfileFunction, id: int, strings: seq<Bytes>)
  {
    f.id as int == id && f.systemNameX == f.nameX &&
    StringIndex(f.nameX, strings) && StringIndex(f.filenameX, strings)
  }

  /**
   * The location with id `id`, created for `key`: no mapping, no address,
   * not folded, and one line, at the key's line, naming the function of the
   * key's file and name.
   */
  ghost predicate LocationEntry(l: ProfileLocation, id: int, key: LocationKey, functionIDs: map<FunctionKey, int64>)
  {
    l.id as int == id && l.mappingID == 0 && l.address == 0 && !l.isFolded &&
    |l.line| == 1 && l.line[0].line == key.line &&
    FunctionOfLocation(key) in functionIDs && l.line[0].functionID as int == functionIDs[FunctionOfLocation(key)]
  }

  /**
   * The function `functionID` creates for `node`, with id `id`: named by the
   * node's name, which is also its system name, in the node's file, starting
   * at the node's line.
   */
  ghost predicate NewFunction(f: ProfileFunction, id: int, node: Node, strings: seq<Bytes>)
  {
    f.id as int == id && f.systemNameX == f.nameX && f.startLine == node.lineNumber &&
    StringIndex(f.nameX, strings) && strings[f.nameX] == node.name &&
    StringIndex(f.filenameX, strings) && strings[f.filenameX] == node.filename
  }

  /** Every function entry is well-formed against `strings`. */
  ghost predicate FunctionEntries(fs: seq<ProfileFunction>, strings: seq<Bytes>)
  {
    forall j :: 0 <= j < |fs| ==> FunctionEntry(fs[j], j + 1, strings)
  }

  /** Interning more strings keeps every function entry well-formed. */
  lemma FunctionEntriesGrow(fs: seq<ProfileFunction>, strings: seq<Bytes>, more: seq<Bytes>)
    requires FunctionEntries(fs, strings) && |strings| <= |more|
    ensures FunctionEntries(fs, more)
  {
  }

  /** Every location entry is well-formed against the function ids. */
  ghost predicate LocationEntries(ls: seq<ProfileLocation>, keys: seq<LocationKey>, functionIDs: map<FunctionKey, int64>)
    requires |keys| == |ls| + 1
  {
    forall i :: 0 <= i < |ls| ==> LocationEntry(ls[i], i + 1, keys[i + 1], functionIDs)
  }

  /** Adding functions keeps every location entry well-formed. */
  lemma LocationEntriesGrow(ls: seq<ProfileLocation>, keys: seq<LocationKey>, ids: map<FunctionKey, int64>, more: map<FunctionKey, int64>)
    requires |keys| == |ls| + 1 && LocationEntries(ls, keys, ids)
    requires forall k :: k in ids ==> k in more && more[k] == ids[k]
    ensures LocationEntries(ls, keys, more)
  {
    forall i | 0 <= i < |ls| ensures LocationEntry(ls[i], i + 1, keys[i + 1], more) {
      assert LocationEntry(ls[i], i + 1, keys[i + 1], ids);
    }
  }

  /**
   * The profile's tables: `strings[i]` has id i; `functions[j]` has id j + 1,
   * the id `functionIDMap` gives `functionKeys[j + 1]`, and its string ids
   * index `strings` (what the function holds for its key is stated where it
   * is made, by `NewFunction`); `location[i]` has id i + 1 and was made for
   * `locationKeys[i + 1]`. Slot 0 of each key sequence is unused.
   */
  ghost predicate TablesOf(strings: seq<Bytes>, stringIDMap: map<Bytes, int64>,
                           functions: seq<ProfileFunction>, functionIDMap: map<FunctionKey, int64>, functionKeys: seq<FunctionKey>,
                           location: seq<ProfileLocation>, locationIDMap: map<LocationKey, int64>, locationKeys: seq<LocationKey>)
  {
    Indexed(strings, stringIDMap, 0) &&
    Indexed(functionKeys, functionIDMap, 1) && |functionKeys| == |functions| + 1 && FunctionEntries(functions, strings) &&
    Indexed(locationKeys, locationIDMap, 1) && |locationKeys| == |location| + 1 && LocationEntries(location, locationKeys, functionIDMap)
  }

  /** Appending a well-formed function under a new key keeps the tables well-formed. */
  lemma AddFunctionKeepsTables(strings: seq<Bytes>, stringIDMap: map<Bytes, int64>,
                               functions: seq<ProfileFunction>, functionIDMap: map<FunctionKey, int64>, functionKeys: seq<FunctionKey>,
                               location: seq<ProfileLocation>, locationIDMap: map<LocationKey, int64>, locationKeys: seq<LocationKey>,
                               key: FunctionKey, f: ProfileFunction)
    requires TablesOf(strings, stringIDMap, functions, functionIDMap, functionKeys, location, locationIDMap, locationKeys)
    requires key !in functionIDMap && |functionKeys| < MAX_ENTRIES
    requires FunctionEntry(f, |functionKeys|, strings)
    ensures TablesOf(strings, stringIDMap, functions + [f], functionIDMap[key := |functionKeys| as int64], functionKeys + [key],
                     location, locationIDMap, locationKeys)
  {
    var ids := functionIDMap[key := |functionKeys| as int64];
    assert Intern(functionKeys, functionIDMap, 1, key) == Interned(functionKeys + [key], ids, |functionKeys|);
    LocationEntriesGrow(location, locationKeys, functionIDMap, ids);
  }

  /** Appending a well-formed location under a new key keeps the tables well-formed. */
  lemma AddLocationKeepsTables(strings: seq<Bytes>, stringIDMap: map<Bytes, int64>,
                               functions: seq<ProfileFunction>, functionIDMap: map<FunctionKey, int64>, functionKeys: seq<FunctionKey>,
                               location: seq<ProfileLocation>, locationIDMap: map<LocationKey, int64>, locationKeys: seq<LocationKey>,
                               key: LocationKey, l: ProfileLocation)
    requires TablesOf(strings, stringIDMap, functions, functionIDMap, functionKeys, location, locationIDMap, locationKeys)
    requires key !in locationIDMap && |locationKeys| < MAX_ENTRIES
    requires LocationEntry(l, |locationKeys|, key, functionIDMap)
    ensures TablesOf(strings, stringIDMap, functions, functionIDMap, functionKeys,
                     location + [l], locationIDMap[key := |locationKeys| as int64], locationKeys + [key])
  {
    var ids := locationIDMap[key := |locationKeys| as int64];
    assert Intern(locationKeys, locationIDMap, 1, key) == Interned(locationKeys + [key], ids, |locationKeys|);
  }

  /**
   * The string table after the constructor's five lookups on an empty table
   * — "", the period type, the period unit, the drop-frames and the
   * keep-frames pattern, in that order — and the ids those lookups returned
   * in the header fields.
   */
  ghost predicate HeaderInterned(strings: seq<Bytes>, stringIDMap: map<Bytes, int64>,
                                 periodType: ValueType, dropFramesX: int64, keepFramesX: int64,
                                 periodTypeName: Bytes, periodUnit: Bytes, dropFrames: Bytes, keepFrames: Bytes)
  {
    var i0 := Intern([], map[], 0, []);
    var i1 := Intern(i0.keys, i0.ids, 0, periodTypeName);
    var i2 := Intern(i1.keys, i1.ids, 0, periodUnit);
    var i3 := Intern(i2.keys, i2.ids, 0, dropFrames);
    var i4 := Intern(i3.keys, i3.ids, 0, keepFrames);
    strings == i4.keys && stringIDMap == i4.ids && i0.id == 0 &&
    periodType.typeX as int == i1.id && periodType.unitX as int == i2.id &&
    dropFramesX as int == i3.id && keepFramesX as int == i4.id
  }

  /** The header chain is `InternAll` of the five header strings on an empty table. */
  lemma HeaderIsInternAll(strings: seq<Bytes>, stringIDMap: map<Bytes, int64>,
                          periodType: ValueType, dropFramesX: int64, keepFramesX: int64,
                          periodTypeName: Bytes, periodUnit: Bytes, dropFrames: Bytes, keepFrames: Bytes)
    requires HeaderInterned(strings, stringIDMap, periodType, dropFramesX, keepFramesX, periodTypeName, periodUnit, dropFrames, keepFrames)
    ensures var r := InternAll([], map[], 0, [[], periodTypeName, periodUnit, dropFrames, keepFrames]);
            strings == r.0 && stringIDMap == r.1 &&
            r.2 == [0, periodType.typeX as int, periodType.unitX as int, dropFramesX as int, keepFramesX as int]
  {
    var i0 := Intern([], map[], 0, []);
    var i1 := Intern(i0.keys, i0.ids, 0, periodTypeName);
    var i2 := Intern(i1.keys, i1.ids, 0, periodUnit);
    var i3 := Intern(i2.keys, i2.ids, 0, dropFrames);
    var i4 := Intern(i3.keys, i3.ids, 0, keepFrames);
    InternAllFour(i0.keys, i0.ids, 0, periodTypeName, periodUnit, dropFrames, keepFrames, i1, i2, i3, i4);
    InternAllCons([], map[], 0, [], [periodTypeName, periodUnit, dropFrames, keepFrames]);
    ConsFive([], periodTypeName, periodUnit, dropFrames, keepFrames);
    ConsFive(i0.id, i1.id, i2.id, i3.id, i4.id);
  }

  /**
   * When the four header strings are non-empty and pairwise distinct, the
   * header's string table (as `HeaderIsInternAll` gives it) is exactly `""`
   * followed by them, with ids 0 to 4.
   */
  lemma HeaderDistinct(strings: seq<Bytes>, periodType: ValueType, dropFramesX: int64, keepFramesX: int64,
                       periodTypeName: Bytes, periodUnit: Bytes, dropFrames: Bytes, keepFrames: Bytes)
    requires var r := InternAll([], map[], 0, [[], periodTypeName, periodUnit, dropFrames, keepFrames]);
             strings == r.0 && r.2 == [0, periodType.typeX as int, periodType.unitX as int, dropFramesX as int, keepFramesX as int]
    requires NoDuplicates([[], periodTypeName, periodUnit, dropFrames, keepFrames])
    ensures strings == [[], periodTypeName, periodUnit, dropFrames, keepFrames]
    ensures periodType.typeX == 1 && periodType.unitX == 2 && dropFramesX == 3 && keepFramesX == 4
  {
    var ks: seq<Bytes> := [[], periodTypeName, periodUnit, dropFrames, keepFrames];
    InternAllFreshKeys([], map[], 0, ks);
    InternAllFreshIds([], map[], 0, ks);
    var r := InternAll([], map[], 0, ks);
    assert r.2[1] == 1 && r.2[2] == 2 && r.2[3] == 3 && r.2[4] == 4;
    assert [] + ks == ks;
  }

  /** Every string id held outside the tables names an interned string, and id 0 is "". */
  ghost predicate HeaderOf(strings: seq<Bytes>, periodType: ValueType, dropFramesX: int64, keepFramesX: int64,
                           sampleType: seq<ValueType>)
  {
    |strings| > 0 && strings[0] == [] &&
    StringIndex(periodType.typeX, strings) && StringIndex(periodType.unitX, strings) &&
    StringIndex(dropFramesX, strings) && StringIndex(keepFramesX, strings) &&
    forall i :: 0 <= i < |sampleType| ==>
      StringIndex(sampleType[i].typeX, strings) && StringIndex(sampleType[i].unitX, strings)
  }

  /** Interning more strings keeps every string id valid. */
  lemma HeaderGrow(strings: seq<Bytes>, more: seq<Bytes>, periodType: ValueType, dropFramesX: int64, keepFramesX: int64,
                   sampleType: seq<ValueType>)
    requires HeaderOf(strings, periodType, dropFramesX, keepFramesX, sampleType) && strings <= more
    ensures HeaderOf(more, periodType, dropFramesX, keepFramesX, sampleType)
  {
  }

  /** A sample type whose two ids are interned can be added. */
  lemma HeaderAddSampleType(strings: seq<Bytes>, periodType: ValueType, dropFramesX: int64, keepFramesX: int64,
                            sampleType: seq<ValueType>, v: ValueType)
    requires HeaderOf(strings, periodType, dropFramesX, keepFramesX, sampleType)
    requires StringIndex(v.typeX, strings) && StringIndex(v.unitX, strings)
    ensures HeaderOf(strings, periodType, dropFramesX, keepFramesX, sampleType + [v])
  {
  }

  /**
   * Profile::stringID on the string table's two fields: the stored id of a
   * known string, or the next id, with the string appended.
   */
  method InternString(strings: seq<Bytes>, stringIDMap: map<Bytes, int64>, s: Bytes)
    returns (more: seq<Bytes>, ids: map<Bytes, int64>, id: int64)
    requires Indexed(strings, stringIDMap, 0) && |strings| < MAX_ENTRIES
    ensures Interned(more, ids, id) == Intern(strings, stringIDMap, 0, s)
  {
    if s in stringIDMap {
      return strings, stringIDMap, stringIDMap[s];
    }
    id := |strings| as int64;
    more, ids := strings + [s], stringIDMap[s := id];
  }

  /**
   * Lines 174-177 of the constructor, on an empty string table: five
   * stringID calls, in order — "" (which thereby gets id 0), the period
   * type, the period unit, the drop-frames pattern and the keep-frames
   * pattern — giving the period type and the drop- and keep-frames ids.
   */
  method InternHeaderStrings(periodTypeName: Bytes, periodUnit: Bytes, dropFrames: Bytes, keepFrames: Bytes)
    returns (strings: seq<Bytes>, stringIDMap: map<Bytes, int64>, periodType: ValueType, dropX: int64, keepX: int64)
    ensures Indexed(strings, stringIDMap, 0) && |strings| <= 5
    ensures HeaderInterned(strings, stringIDMap, periodType, dropX, keepX, periodTypeName, periodUnit, dropFrames, keepFrames)
    ensures HeaderOf(strings, periodType, dropX, keepX, [])
    ensures strings[periodType.typeX] == periodTypeName && strings[periodType.unitX] == periodUnit
    ensures strings[dropX] == dropFrames && strings[keepX] == keepFrames
  {
    var empty, typeX, unitX;
    strings, stringIDMap, empty := InternString([], map[], []);
    strings, stringIDMap, typeX := InternString(strings, stringIDMap, periodTypeName);
    strings, stringIDMap, unitX := InternString(strings, stringIDMap, periodUnit);
    strings, stringIDMap, dropX := InternString(strings, stringIDMap, dropFrames);
    strings, stringIDMap, keepX := InternString(strings, stringIDMap, keepFrames);
    periodType := ValueType(typeX, unitX);
  }

  /** The tables of a new profile once its header strings are interned. */
  lemma TablesWithStrings(strings: seq<Bytes>, stringIDMap: map<Bytes, int64>)
    requires Indexed(strings, stringIDMap, 0)
    ensures TablesOf(strings, stringIDMap, [], map[], [FunctionKey(0, [])], [], map[], [LocationKey(0, 0, 0, [])])
  {
  }

  /**
   * The first six encoder calls of Profile::encode, over a snapshot `p` of
   * the profile's fields: the repeated messages and the string table.
   * `gs[k]` is what call k writes.
   */
  method EncodeTables(p: ProfileData, ghost gs: seq<seq<Field>>, buf: Bytes) returns (out: Bytes)
    requires TableCalls(gs, p)
    ensures out == Written(buf, gs, 6)
  {
    out := EncodeRepeatedMessage(1, p.sampleType, ValueTypeBytes, buf);
    assert out == Written(buf, gs, 1);
    out := EncodeRepeatedMessage(2, p.sample, SampleBytes, out);
    assert out == Written(buf, gs, 2);
    out := EncodeRepeatedMessage(3, p.mapping, MappingBytes, out);
    assert out == Written(buf, gs, 3);
    out := EncodeRepeatedMessage(4, p.location, LocationBytes, out);
    assert out == Written(buf, gs, 4);
    out := EncodeRepeatedMessage(5, p.functions, FunctionBytes, out);
    assert out == Written(buf, gs, 5);
    out := EncodeStrings(6, p.strings, out);
    assert out == Written(buf, gs, 6);
  }

  /** The remaining eight calls, on the buffer the first six left, which began as `start`. */
  method EncodeScalars(p: ProfileData, ghost gs: seq<seq<Field>>, ghost start: Bytes, buf: Bytes) returns (out: Bytes)
    requires ScalarCalls(gs, p) && buf == Written(start, gs, 6)
    ensures out == Written(start, gs, 14)
  {
    out := EncodeInt64Opt(7, p.dropFramesX, buf);
    assert out == Written(start, gs, 7);
    out := EncodeInt64Opt(8, p.keepFramesX, out);
    assert out == Written(start, gs, 8);
    out := EncodeInt64Opt(9, p.timeNanos, out);
    assert out == Written(start, gs, 9);
    out := EncodeInt64Opt(10, p.durationNanos, out);
    assert out == Written(start, gs, 10);
    if p.periodType.typeX != 0 || p.periodType.unitX != 0 {
      out := EncodeMessage(11, p.periodType, ValueTypeBytes, out);
    } else {
      assert Serialize(gs[10]) == [];
    }
    assert out == Written(start, gs, 11);
    out := EncodeInt64Opt(12, p.period, out);
    assert out == Written(start, gs, 12);
    out := EncodeInt64s(13, p.commentX, out);
    assert out == Written(start, gs, 13);
    out := EncodeInt64(14, p.defaultSampleTypeX, out);
    assert out == Written(start, gs, 14);
  }

  /** The stack of location ids a caller builds while walking a profile tree, leaf first. */
  class LocationStack {
    var frames: seq<uint64>

    constructor()
      ensures frames == []
    {
      frames := [];
    }

    method PushFront(x: uint64)
      modifies this
      ensures frames == [x] + old(frames)
    {
      frames := [x] + frames;
    }
  }

  class Profile {
    var sampleType: seq<ValueType>
    var sample: seq<Sample>
    var mapping: seq<Mapping>
    var location: seq<ProfileLocation>
    var functions: seq<ProfileFunction>
    var strings: seq<Bytes>
    var dropFramesX: int64
    var keepFramesX: int64
    var timeNanos: int64
    var durationNanos: int64
    var periodType: ValueType
    var period: int64
    var commentX: seq<int64>
    var defaultSampleTypeX: int64

    var stringIDMap: map<Bytes, int64>
    var functionIDMap: map<FunctionKey, int64>
    var locationIDMap: map<LocationKey, int64>

    /**
     * The key each function, and each location, was created for, indexed by
     * id; ids start at 1, so slot 0 of each is unused.
     */
    ghost var functionKeys: seq<FunctionKey>
    ghost var locationKeys: seq<LocationKey>

    /** The three tables are well-formed; see `TablesOf`. */
    ghost predicate Tables()
      reads this`strings, this`stringIDMap, this`functions, this`functionIDMap, this`functionKeys, this`location, this`locationIDMap, this`locationKeys
    {
      TablesOf(strings, stringIDMap, functions, functionIDMap, functionKeys, location, locationIDMap, locationKeys)
    }

    /** Every string id the profile holds outside the tables names an interned string; id 0 is "". */
    ghost predicate Header()
      reads this`strings, this`periodType, this`dropFramesX, this`keepFramesX, this`sampleType
    {
      HeaderOf(strings, periodType, dropFramesX, keepFramesX, sampleType)
    }

    ghost predicate Valid()
      reads this
    {
      Tables() && Header() && mapping == [] && commentX == [] && defaultSampleTypeX == 0
    }

    /** The profile's fields as the message `Encode` writes. */
    function Data(): ProfileData
      reads this
    {
      ProfileData(sampleType, sample, mapping, location, functions, strings,
        dropFramesX, keepFramesX, timeNanos, durationNanos, periodType, period,
        commentX, defaultSampleTypeX)
    }

    /**
     * Interns "" first, so that it has id 0, then the period type and unit
     * and the drop- and keep-frames patterns, in that order.
     */
    constructor(periodTypeName: Bytes, periodUnit: Bytes, period: int64, timeNanos: int64,
                durationNanos: int64, dropFrames: Bytes, keepFrames: Bytes)
      ensures Valid()
      ensures HeaderInterned(strings, stringIDMap, periodType, dropFramesX, keepFramesX,
                             periodTypeName, periodUnit, dropFrames, keepFrames)
      ensures |strings| <= 5 && strings[0] == []
      ensures strings[periodType.typeX] == periodTypeName && strings[periodType.unitX] == periodUnit
      ensures strings[dropFramesX] == dropFrames && strings[keepFramesX] == keepFrames
      ensures this.period == period && this.timeNanos == timeNanos && this.durationNanos == durationNanos
      ensures sampleType == [] && sample == [] && location == [] && functions == []
    {
      this.period := period;
      this.timeNanos := timeNanos;
      this.durationNanos := durationNanos;
      defaultSampleTypeX := 0;
      sampleType := [];
      sample := [];
      mapping := [];
      location := [];
      functions := [];
      var ss, ids, pt, dropX, keepX := InternHeaderStrings(periodTypeName, periodUnit, dropFrames, keepFrames);
      strings, stringIDMap, periodType, dropFramesX, keepFramesX := ss, ids, pt, dropX, keepX;
      commentX := [];
      functionIDMap := map[];
      locationIDMap := map[];
      functionKeys := [FunctionKey(0, [])];
      locationKeys := [LocationKey(0, 0, 0, [])];
      new;
      TablesWithStrings(strings, stringIDMap);
    }

    /**
     * The id of `s` in the string table: the stored id when `s` is already
     * there, otherwise the next id, with `s` appended.
     */
    method StringID(s: Bytes) returns (id: int64)
      requires Tables() && |strings| < MAX_ENTRIES
      modifies this`strings, this`stringIDMap
      ensures Tables()
      ensures Interned(strings, stringIDMap, id) == Intern(old(strings), old(stringIDMap), 0, s)
      ensures StringIndex(id, strings) && strings[id] == s
      ensures old(strings) <= strings && |strings| <= |old(strings)| + 1
      ensures s in old(stringIDMap) ==> id == old(stringIDMap)[s] && strings == old(strings) && stringIDMap == old(stringIDMap)
      ensures s !in old(stringIDMap) ==> id as int == |old(strings)| && strings == old(strings) + [s]
    {
      var more, ids;
      more, ids, id := InternString(strings, stringIDMap, s);
      FunctionEntriesGrow(functions, strings, more);
      strings, stringIDMap := more, ids;
    }

    /**
     * The id of the function named by `node`'s file and name. A known key
     * returns its stored id and changes nothing; a new key interns the name
     * and then the file name, and appends a function with the next id whose
     * system name is its name and whose start line is the node's line.
     */
    method FunctionID(node: Node) returns (id: int64)
      requires Tables() && |strings| + 2 < MAX_ENTRIES && |functions| + 1 < MAX_ENTRIES
      modifies this`strings, this`stringIDMap, this`functions, this`functionIDMap, this`functionKeys
      ensures Tables()
      ensures Interned(functionKeys, functionIDMap, id) == Intern(old(functionKeys), old(functionIDMap), 1, FunctionKeyOf(node))
      ensures old(strings) <= strings && |strings| <= |old(strings)| + 2
      ensures old(functions) <= functions
      ensures FunctionKeyOf(node) in old(functionIDMap) ==> strings == old(strings) && functions == old(functions)
      ensures FunctionKeyOf(node) !in old(functionIDMap) ==>
                |functions| == |old(functions)| + 1 && NewFunction(functions[|old(functions)|], id, node, strings)
    {
      var key := FunctionKeyOf(node);
      if key in functionIDMap {
        return functionIDMap[key];
      }
      var nameX := StringID(node.name);
      var filenameX := StringID(node.filename);
      id := |functions| as int64 + 1;
      var f := ProfileFunction(id as uint64, nameX, nameX, filenameX, node.lineNumber);
      AddFunctionKeepsTables(strings, stringIDMap, functions, functionIDMap, functionKeys, location, locationIDMap, locationKeys, key, f);
      functions, functionIDMap, functionKeys := functions + [f], functionIDMap[key := id], functionKeys + [key];
    }

    /** Profile::line: the one line of a new location, naming the node's function, at the node's line. */
    method LineOf(node: Node) returns (l: Line)
      requires Tables() && |strings| + 2 < MAX_ENTRIES && |functions| + 1 < MAX_ENTRIES
      modifies this`strings, this`stringIDMap, this`functions, this`functionIDMap, this`functionKeys
      ensures Tables()
      ensures Interned(functionKeys, functionIDMap, l.functionID) == Intern(old(functionKeys), old(functionIDMap), 1, FunctionKeyOf(node))
      ensures l.line == node.lineNumber
      ensures old(strings) <= strings && |strings| <= |old(strings)| + 2
      ensures old(functions) <= functions && |functions| <= |old(functions)| + 1
      ensures FunctionKeyOf(node) in old(functionIDMap) ==> strings == old(strings) && functions == old(functions)
      ensures FunctionKeyOf(node) !in old(functionIDMap) ==>
                |functions| == |old(functions)| + 1 && NewFunction(functions[|old(functions)|], l.functionID as int, node, strings)
    {
      var fid := FunctionID(node);
      // Function ids are positive, so the conversion to the line's unsigned field keeps the value.
      l := Line(fid as uint64, node.lineNumber);
    }

    /**
     * The id of the location of `node`'s file, line, column and name. A known
     * key returns its stored id and changes nothing; a new key appends a
     * location with the next id, no mapping, no address, not folded, and the
     * single line `LineOf` gives.
     */
    method LocationID(node: Node) returns (id: uint64)
      requires Tables() && |strings| + 2 < MAX_ENTRIES && |functions| + 1 < MAX_ENTRIES && |location| + 1 < MAX_ENTRIES
      modifies this`strings, this`stringIDMap, this`functions, this`functionIDMap, this`functionKeys
      modifies this`location, this`locationIDMap, this`locationKeys
      ensures Tables()
      ensures Interned(locationKeys, locationIDMap, id as int) == Intern(old(locationKeys), old(locationIDMap), 1, LocationKeyOf(node))
      ensures old(location) <= location && old(locationKeys) <= locationKeys && |location| <= |old(location)| + 1
      ensures old(strings) <= strings && |strings| <= |old(strings)| + 2
      ensures old(functions) <= functions && |functions| <= |old(functions)| + 1 && old(functionKeys) <= functionKeys
      ensures LocationKeyOf(node) in old(locationIDMap) ==>
                id as int == old(locationIDMap)[LocationKeyOf(node)] as int &&
                location == old(location) && locationIDMap == old(locationIDMap) && locationKeys == old(locationKeys) &&
                strings == old(strings) && stringIDMap == old(stringIDMap) &&
                functions == old(functions) && functionIDMap == old(functionIDMap) && functionKeys == old(functionKeys)
      ensures LocationKeyOf(node) !in old(locationIDMap) ==>
                id as int == |old(locationKeys)| && locationKeys == old(locationKeys) + [LocationKeyOf(node)] &&
                locationIDMap == old(locationIDMap)[LocationKeyOf(node) := id as int64] &&
                FunctionKeyOf(node) in functionIDMap &&
                Interned(functionKeys, functionIDMap, functionIDMap[FunctionKeyOf(node)])
                  == Intern(old(functionKeys), old(functionIDMap), 1, FunctionKeyOf(node)) &&
                location == old(location) + [ProfileLocation(id, 0, 0, [Line(functionIDMap[FunctionKeyOf(node)] as uint64, node.lineNumber)], false)]
      ensures LocationKeyOf(node) !in old(locationIDMap) && FunctionKeyOf(node) in old(functionIDMap) ==>
                strings == old(strings) && functions == old(functions)
      ensures LocationKeyOf(node) !in old(locationIDMap) && FunctionKeyOf(node) !in old(functionIDMap) ==>
                FunctionKeyOf(node) in functionIDMap && |functions| == |old(functions)| + 1 &&
                NewFunction(functions[|old(functions)|], functionIDMap[FunctionKeyOf(node)] as int, node, strings)
    {
      var key := LocationKeyOf(node);
      if key in locationIDMap {
        id := locationIDMap[key] as uint64;
        InternByCases(locationKeys, locationIDMap, 1, key, locationKeys, locationIDMap, id as int);
        return;
      }
      id := |location| as uint64 + 1;
      var l := LineOf(node);
      var loc := ProfileLocation(id, 0, 0, [l], false);
      AddLocationKeepsTables(strings, stringIDMap, functions, functionIDMap, functionKeys, location, locationIDMap, locationKeys, key, loc);
      ghost var keys0, ids0 := locationKeys, locationIDMap;
      location, locationIDMap, locationKeys := location + [loc], locationIDMap[key := id as int64], locationKeys + [key];
      InternByCases(keys0, ids0, 1, key, locationKeys, locationIDMap, id as int);
    }

    /**
     * Profile::addSampleType: interns the type and then the unit name and
     * appends the one sample type they form; nothing else changes.
     */
    method AddSampleType(typeName: Bytes, unitName: Bytes)
      requires Valid() && |strings| + 2 < MAX_ENTRIES
      modifies this`strings, this`stringIDMap, this`sampleType
      ensures Valid()
      ensures var t := Intern(old(strings), old(stringIDMap), 0, typeName);
              var u := Intern(t.keys, t.ids, 0, unitName);
              strings == u.keys && stringIDMap == u.ids &&
              sampleType == old(sampleType) + [ValueType(t.id as int64, u.id as int64)]
      ensures strings[sampleType[|sampleType| - 1].typeX] == typeName
      ensures strings[sampleType[|sampleType| - 1].unitX] == unitName
      ensures location == old(location) && functions == old(functions) && sample == old(sample)
    {
      ghost var s0 := strings;
      var typeX := StringID(typeName);
      var unitX := StringID(unitName);
      var v := ValueType(typeX, unitX);
      HeaderGrow(s0, strings, periodType, dropFramesX, keepFramesX, sampleType);
      HeaderAddSampleType(strings, periodType, dropFramesX, keepFramesX, sampleType, v);
      sampleType := sampleType + [v];
    }

    /**
     * Profile::addSample: pushes the id of the node's location onto the front
     * of the caller's stack, so the leaf comes first, and appends the samples
     * the node reports for that stack. Earlier samples stay as they were;
     * the tables change only by interning the node's location, so a node
     * whose location is known changes none of them.
     */
    method AddSample(node: Node, stack: LocationStack)
      requires Valid() && |strings| + 2 < MAX_ENTRIES && |functions| + 1 < MAX_ENTRIES && |location| + 1 < MAX_ENTRIES
      modifies this`strings, this`stringIDMap, this`functions, this`functionIDMap, this`functionKeys
      modifies this`location, this`locationIDMap, this`locationKeys, this`sample, stack
      ensures Valid()
      ensures |stack.frames| == |old(stack.frames)| + 1 && stack.frames[1..] == old(stack.frames)
      ensures LocationKeyOf(node) in locationIDMap && locationIDMap[LocationKeyOf(node)] as int == stack.frames[0] as int
      ensures sample == old(sample) + node.samples(stack.frames)
      ensures old(strings) <= strings && old(functions) <= functions && old(location) <= location
      ensures old(functionKeys) <= functionKeys && old(locationKeys) <= locationKeys
      ensures |strings| <= |old(strings)| + 2 && |functions| <= |old(functions)| + 1 && |location| <= |old(location)| + 1
      ensures forall k :: k in old(stringIDMap) ==> k in stringIDMap && stringIDMap[k] == old(stringIDMap)[k]
      ensures forall k :: k in old(functionIDMap) ==> k in functionIDMap && functionIDMap[k] == old(functionIDMap)[k]
      ensures forall k :: k in old(locationIDMap) ==> k in locationIDMap && locationIDMap[k] == old(locationIDMap)[k]
      ensures Interned(locationKeys, locationIDMap, stack.frames[0] as int) == Intern(old(locationKeys), old(locationIDMap), 1, LocationKeyOf(node))
      ensures LocationKeyOf(node) in old(locationIDMap) ==>
                location == old(location) && locationIDMap == old(locationIDMap) && locationKeys == old(locationKeys) &&
                strings == old(strings) && stringIDMap == old(stringIDMap) &&
                functions == old(functions) && functionIDMap == old(functionIDMap) && functionKeys == old(functionKeys)
      ensures sampleType == old(sampleType)
    {
      ghost var s0, sids, fkeys, fids, lkeys, lids := strings, stringIDMap, functionKeys, functionIDMap, locationKeys, locationIDMap;
      var loc := LocationID(node);
      HeaderGrow(s0, strings, periodType, dropFramesX, keepFramesX, sampleType);
      IdsKept(s0, sids, strings, stringIDMap, 0);
      IdsKept(fkeys, fids, functionKeys, functionIDMap, 1);
      IdsKept(lkeys, lids, locationKeys, locationIDMap, 1);
      PushAndCollect(node, stack, loc);
    }

    /** The second half of Profile::addSample, once the location id is known. */
    method PushAndCollect(node: Node, stack: LocationStack, loc: uint64)
      requires Valid()
      modifies this`sample, stack
      ensures Valid()
      ensures stack.frames == [loc] + old(stack.frames)
      ensures sample == old(sample) + node.samples(stack.frames)
    {
      stack.PushFront(loc);
      sample := sample + node.samples(stack.frames);
    }

    /**
     * Profile::encode: the fourteen fields of the profile message in field
     * order, the period type only when one of its ids is non-zero, the
     * default sample type always.
     */
    method Encode(buf: Bytes) returns (out: Bytes)
      ensures out == buf + ProfileBytes(Data())
    {
      var p := Data();
      ghost var gs := Groups(EntityWriters, p);
      EntityTableGroups(p);
      EntityScalarGroups(p);
      out := EncodeTables(p, gs, buf);
      out := EncodeScalars(p, gs, buf, out);
      WrittenAll(buf, gs);
    }
  }
}
