/**
 * FactoryValue: a named bundle of parameters keyed by the constants of one
 * enum class. Regions, shapes and vertical adjustors all keep their
 * configuration in one. The enum is represented by its class name and its
 * constant names in declaration (ordinal) order; an EnumMap is a Dafny map
 * from constant name to value, iterated in that order.
 */
module Factory {
  import opened Common

  /** java.lang.Number values the configuration holds (integral only). */
  datatype Number = IntNum(i: int) | LongNum(l: int)
  {
    function LongValue(): int
    {
      match this
      case IntNum(i) => i
      case LongNum(l) => l
    }
  }

  /** The objects a parameter map holds. */
  datatype Value =
    | Num(n: Number)
    | Str(s: string)
    | Chr(c: char)
    | Bool(b: bool)
    | Obj(cls: string, text: string)   // any other object: runtime class and toString()

  function ClassName(v: Value): string
  {
    match v
    case Num(IntNum(_)) => "java.lang.Integer"
    case Num(LongNum(_)) => "java.lang.Long"
    case Str(_) => "java.lang.String"
    case Chr(_) => "java.lang.Character"
    case Bool(_) => "java.lang.Boolean"
    case Obj(cls, _) => cls
  }

  /** Object.toString of a value. */
  function Text(v: Value): string
  {
    match v
    case Num(n) => DecimalString(n.LongValue())
    case Str(s) => s
    case Chr(c) => [c]
    case Bool(b) => if b then "true" else "false"
    case Obj(_, t) => t
  }

  /** A constant of some enum class, as setData(EnumMap) receives it. */
  datatype EnumKey = EnumKey(enumClass: string, name: string)

  /**
   * The value getNumber returns (and stores back) for `key`, or the
   * exception it throws: a number is returned as is, a character is read
   * as one decimal digit (any other character gives the default), a string
   * fails its cast to Character, and any other object is rejected.
   */
  function NumberOf(data: map<string, Value>, key: string, def: Number): (r: Result<Number>)
    ensures key !in data ==> r == Ok(def)
    ensures r.Err? <==> key in data && !data[key].Num? && !data[key].Chr?
    ensures r.Err? && data[key].Str? ==> r.error == ClassCast
    ensures r.Err? && !data[key].Str? ==> r.error == IllegalArgument
    ensures r.Ok? && key in data && data[key].Num? ==> r.value == data[key].n
    ensures r.Ok? && key in data && data[key].Chr? ==>
              r.value == (if IsDigit(data[key].c) then IntNum(DigitValue(data[key].c)) else def)
  {
    if key !in data then Ok(def)
    else match data[key]
      case Num(n) => Ok(n)
      case Str(_) => Err(ClassCast)
      case Chr(c) => if IsDigit(c) then Ok(IntNum(DigitValue(c))) else Ok(def)
      case _ => Err(IllegalArgument)
  }

  /** After getNumber stores its result, the next call returns the same number. */
  lemma NumberOfStable(data: map<string, Value>, key: string, def: Number, def2: Number)
    requires NumberOf(data, key, def).Ok?
    ensures NumberOf(data[key := Num(NumberOf(data, key, def).value)], key, def2)
            == NumberOf(data, key, def)
  {
  }

  /** The index of the first entry setData(EnumMap) refuses, or the length. */
  function FirstRefused(entries: seq<(EnumKey, Option<Value>)>, enumClass: string): (k: nat)
    ensures k <= |entries|
    ensures forall j :: 0 <= j < k ==> entries[j].1.Some? && entries[j].0.enumClass == enumClass
    ensures k < |entries| ==> entries[k].1.None? || entries[k].0.enumClass != enumClass
  {
    if entries == [] then 0
    else if entries[0].1.None? || entries[0].0.enumClass != enumClass then 0
    else 1 + FirstRefused(entries[1..], enumClass)
  }

  /** The map built by putting each accepted entry in order. */
  function PutAll(m: map<string, Value>, entries: seq<(EnumKey, Option<Value>)>): (r: map<string, Value>)
    requires forall j :: 0 <= j < |entries| ==> entries[j].1.Some?
    ensures r.Keys == m.Keys + set j | 0 <= j < |entries| :: entries[j].0.name
    decreases |entries|
  {
    if entries == [] then m
    else
      var last := entries[|entries| - 1];
      PutAll(m, entries[..|entries| - 1])[last.0.name := last.1.value]
  }

  /** A later entry for the same key wins. */
  lemma {:induction false} PutAllLast(m: map<string, Value>, entries: seq<(EnumKey, Option<Value>)>, j: nat)
    requires forall k :: 0 <= k < |entries| ==> entries[k].1.Some?
    requires j < |entries|
    requires forall k :: j < k < |entries| ==> entries[k].0.name != entries[j].0.name
    ensures PutAll(m, entries)[entries[j].0.name] == entries[j].1.value
    decreases |entries|
  {
    if j < |entries| - 1 {
      PutAllLast(m, entries[..|entries| - 1], j);
    }
  }

  /**
   * The merge setData(Map) performs: entries with a missing key, a missing
   * value, or a name that is not (case-sensitively) a constant are ignored;
   * the others overwrite.
   */
  function Merge(m: map<string, Value>, constants: seq<string>, entries: seq<(Option<string>, Option<Value>)>): map<string, Value>
    decreases |entries|
  {
    if entries == [] then m
    else
      var e := entries[|entries| - 1];
      var prefix := Merge(m, constants, entries[..|entries| - 1]);
      if e.0.Some? && e.1.Some? && e.0.value in constants then prefix[e.0.value := e.1.value] else prefix
  }

  predicate Accepted(constants: seq<string>, e: (Option<string>, Option<Value>))
  {
    e.0.Some? && e.1.Some? && e.0.value in constants
  }

  /**
   * What the merge changes: a key no accepted entry names keeps its old
   * value (or stays absent), and every key the merge holds is an old key or
   * an accepted name.
   */
  lemma {:induction false} MergeKeeps(m: map<string, Value>, constants: seq<string>, entries: seq<(Option<string>, Option<Value>)>, k: string)
    requires forall j :: 0 <= j < |entries| ==> !(Accepted(constants, entries[j]) && entries[j].0.value == k)
    ensures k in Merge(m, constants, entries) <==> k in m
    ensures k in m ==> Merge(m, constants, entries)[k] == m[k]
    decreases |entries|
  {
    if entries != [] {
      MergeKeeps(m, constants, entries[..|entries| - 1], k);
    }
  }

  /** The last accepted entry for a key decides its value. */
  lemma {:induction false} MergeLast(m: map<string, Value>, constants: seq<string>, entries: seq<(Option<string>, Option<Value>)>, j: nat)
    requires j < |entries| && Accepted(constants, entries[j])
    requires forall k :: j < k < |entries| ==> !(Accepted(constants, entries[k]) && entries[k].0.value == entries[j].0.value)
    ensures entries[j].0.value in Merge(m, constants, entries)
    ensures Merge(m, constants, entries)[entries[j].0.value] == entries[j].1.value
    decreases |entries|
  {
    if j < |entries| - 1 {
      MergeLast(m, constants, entries[..|entries| - 1], j);
      var e := entries[|entries| - 1];
      assert !(Accepted(constants, e) && e.0.value == entries[j].0.value);
    }
  }

  /** Whether two stored values count as equal in FactoryValue.equals. */
  predicate SameValue(mine: Value, theirs: Value)
  {
    if ClassName(mine) == ClassName(theirs) then mine == theirs
    else EqualsIgnoreCase(Text(mine), Text(theirs))
  }

  /**
   * The comparison loop of FactoryValue.equals over the keys `ks` (taken
   * in ordinal order): it stops at the first key whose values differ, and a
   * key that only `mine` holds dereferences null.
   */
  function CompareFrom(mine: map<string, Value>, theirs: map<string, Value>, ks: seq<string>): Result<bool>
    decreases |ks|
  {
    if ks == [] then Ok(true)
    else if ks[0] !in mine then CompareFrom(mine, theirs, ks[1..])
    else if ks[0] !in theirs then Err(NullPointer)
    else if !SameValue(mine[ks[0]], theirs[ks[0]]) then Ok(false)
    else CompareFrom(mine, theirs, ks[1..])
  }

  /**
   * The comparison succeeds exactly when every key of `mine` among `ks` is
   * also in `theirs` with a matching value, and never answers false then.
   */
  lemma {:induction false} CompareFromMeaning(mine: map<string, Value>, theirs: map<string, Value>, ks: seq<string>)
    ensures CompareFrom(mine, theirs, ks) == Ok(true) <==>
              forall j :: 0 <= j < |ks| && ks[j] in mine ==>
                ks[j] in theirs && SameValue(mine[ks[j]], theirs[ks[j]])
    ensures CompareFrom(mine, theirs, ks) == Err(NullPointer) ==>
              exists j :: 0 <= j < |ks| && ks[j] in mine && ks[j] !in theirs
    decreases |ks|
  {
    if ks != [] {
      CompareFromMeaning(mine, theirs, ks[1..]);
      if CompareFrom(mine, theirs, ks) == Err(NullPointer) && ks[0] in mine && ks[0] in theirs {
        var j :| 0 <= j < |ks[1..]| && ks[1..][j] in mine && ks[1..][j] !in theirs;
        assert ks[j + 1] == ks[1..][j];
      }
    }
  }

  class FactoryValue {
    /** The runtime class followed by its superclasses, most derived first. */
    const lineage: seq<string>
    /** The parameter enum class (`myClass`) and its constant names in ordinal order. */
    const enumClass: string
    const constants: seq<string>
    var name: string
    var data: map<string, Value>
    /** The memoised result of keys(). */
    var keyNames: Option<set<string>>

    ghost predicate Valid()
      reads this
    {
      |lineage| >= 1 && forall k :: k in data ==> k in constants
    }

    constructor (lineage: seq<string>, enumClass: string, constants: seq<string>, name: string)
      requires |lineage| >= 1
      ensures Valid()
      ensures this.lineage == lineage && this.enumClass == enumClass && this.constants == constants
      ensures this.name == name && data == map[] && keyNames == None
    {
      this.lineage := lineage;
      this.enumClass := enumClass;
      this.constants := constants;
      this.name := name;
      data := map[];
      keyNames := None;
    }

    /** getData(): a copy of the parameters; later updates of either side are independent. */
    function GetData(): (r: map<string, Value>)
      reads this
      ensures forall k :: k in r <==> k in data
      ensures forall k :: k in r ==> r[k] == data[k]
    {
      data
    }

    /** getData(key): the stored value, or null. */
    function GetDatum(key: string): (r: Option<Value>)
      reads this
      ensures r.Some? <==> key in data
      ensures r.Some? ==> r.value == data[key]
    {
      if key in data then Some(data[key]) else None
    }

    /**
     * setData(EnumMap): the parameters are reset and the entries copied in
     * order; at the first entry with a null value or a key of another enum
     * class the copy stops with IllegalArgumentException, leaving the
     * entries before it in place.
     */
    method SetDataFromEnum(entries: seq<(EnumKey, Option<Value>)>) returns (out: Outcome)
      requires Valid()
      requires forall j :: 0 <= j < |entries| && entries[j].0.enumClass == enumClass ==> entries[j].0.name in constants
      modifies this
      ensures Valid()
      ensures data == PutAll(map[], entries[..FirstRefused(entries, enumClass)])
      ensures out.Pass? <==> FirstRefused(entries, enumClass) == |entries|
      ensures out.Fail? ==> out.error == IllegalArgument
      ensures name == old(name) && keyNames == old(keyNames)
    {
      data := map[];
      var stop := FirstRefused(entries, enumClass);
      var j := 0;
      while j < |entries|
        invariant j <= stop
        invariant data == PutAll(map[], entries[..j])
        invariant forall k :: k in data ==> k in constants
        invariant name == old(name) && keyNames == old(keyNames)
      {
        var e := entries[j];
        if e.1.None? || e.0.enumClass != enumClass {
          return Fail(IllegalArgument);
        }
        assert entries[..j + 1][..j] == entries[..j];
        data := data[e.0.name := e.1.value];
        j := j + 1;
      }
      assert entries[..j] == entries;
      return Pass;
    }

    /**
     * setData(Map<String,Object>): merges the entries whose key names a
     * constant exactly; the rest are ignored and nothing is thrown.
     */
    method SetDataFromNames(entries: seq<(Option<string>, Option<Value>)>)
      requires Valid()
      modifies this
      ensures Valid()
      ensures data == Merge(old(data), constants, entries)
      ensures name == old(name) && keyNames == old(keyNames)
    {
      var j := 0;
      while j < |entries|
        invariant j <= |entries|
        invariant data == Merge(old(data), constants, entries[..j])
        invariant forall k :: k in data ==> k in constants
        invariant name == old(name) && keyNames == old(keyNames)
      {
        var e := entries[j];
        assert entries[..j + 1][..j] == entries[..j];
        if e.0.Some? && e.1.Some? && e.0.value in constants {
          data := data[e.0.value := e.1.value];
        }
        j := j + 1;
      }
      assert entries[..j] == entries;
    }

    /** set(key, value): a null key or value is refused, anything else stored. */
    method Set(key: Option<string>, value: Option<Value>) returns (out: Outcome)
      requires Valid()
      requires key.Some? ==> key.value in constants
      modifies this
      ensures Valid()
      ensures out.Pass? <==> key.Some? && value.Some?
      ensures out.Fail? ==> out.error == IllegalArgument && data == old(data)
      ensures out.Pass? ==> data == old(data)[key.value := value.value]
      ensures name == old(name) && keyNames == old(keyNames)
    {
      if key.None? || value.None? {
        return Fail(IllegalArgument);
      }
      data := data[key.value := value.value];
      return Pass;
    }

    /** clone(): a new value with the same class, name and parameters. */
    method Clone() returns (c: FactoryValue)
      requires Valid()
      ensures fresh(c) && c.Valid()
      ensures c.lineage == lineage && c.enumClass == enumClass && c.constants == constants
      ensures c.name == name && c.data == data && c.keyNames == keyNames
    {
      c := new FactoryValue(lineage, enumClass, constants, name);
      c.data := data;
      c.keyNames := keyNames;
    }

    /**
     * getNumber(key, def): the number NumberOf describes, which is also
     * stored back under `key`; on an exception nothing changes.
     */
    method GetNumber(key: string, def: Number) returns (r: Result<Number>)
      requires Valid()
      requires key in constants
      modifies this
      ensures Valid()
      ensures r == NumberOf(old(data), key, def)
      ensures r.Ok? ==> data == old(data)[key := Num(r.value)]
      ensures r.Err? ==> data == old(data)
      ensures name == old(name) && keyNames == old(keyNames)
    {
      r := NumberOf(data, key, def);
      if r.Ok? {
        data := data[key := Num(r.value)];
      }
    }

    /** keys(): the names of all constants, computed once and then memoised. */
    method Keys() returns (ks: set<string>)
      modifies this
      ensures ks == set k | k in constants
      ensures old(keyNames).Some? ==> ks == old(keyNames).value
      ensures keyNames == Some(ks) && data == old(data) && name == old(name)
      requires keyNames.Some? ==> keyNames.value == set k | k in constants
    {
      if keyNames.None? {
        keyNames := Some(set k | k in constants);
      }
      ks := keyNames.value;
    }

    /**
     * equals(other): false for another enum class or a class this one is
     * not assignable from; otherwise the key-by-key comparison of
     * CompareFrom, in ordinal order.
     */
    method Equals(other: FactoryValue) returns (r: Result<bool>)
      requires Valid() && other.Valid()
      ensures !(lineage[0] in other.lineage && other.enumClass == enumClass) ==> r == Ok(false)
      ensures lineage[0] in other.lineage && other.enumClass == enumClass ==>
                r == CompareFrom(data, other.data, constants)
    {
      if lineage[0] !in other.lineage || other.enumClass != enumClass {
        return Ok(false);
      }
      var theirs := other.GetData();
      var j := 0;
      while j < |constants|
        invariant j <= |constants|
        invariant CompareFrom(data, theirs, constants[j..]) == CompareFrom(data, theirs, constants)
      {
        var k := constants[j];
        assert constants[j..][1..] == constants[j + 1..];
        if k in data {
          if k !in theirs {
            return Err(NullPointer);
          }
          if !SameValue(data[k], theirs[k]) {
            return Ok(false);
          }
        }
        j := j + 1;
      }
      return Ok(true);
    }
  }
}
