/**
 * MutablePatternMatchContext: the string-keyed scratch map that block predicates, layer
 * matchers and validators share during one match attempt.
 */
module PatternMatchContext {
  import opened Wrappers

  /** A stored Java object: null, a boxed Integer, or any other object (known by identity). */
  datatype Value = Null | IntValue(i: int) | Ref(id: int)

  /** The contents of the backing HashMap. */
  type Ctx = map<string, Value>

  /** HashMap.get: the stored value, or null when the key is absent. */
  function Lookup(data: Ctx, key: string): (v: Value)
    ensures key !in data ==> v == Null
  {
    if key in data then data[key] else Null
  }

  const INT_MIN: int := -0x8000_0000
  const INT_MAX: int := 0x7FFF_FFFF

  predicate IsInt32(v: int) {
    INT_MIN <= v <= INT_MAX
  }

  /** Java `int` addition: the mathematical result reduced into 32 bits, two's complement. */
  function Wrap32(v: int): (r: int)
    ensures IsInt32(r)
    ensures (r - v) % 0x1_0000_0000 == 0
    ensures IsInt32(v) ==> r == v
  {
    (v - INT_MIN) % 0x1_0000_0000 + INT_MIN
  }

  /** A context holds a Java Integer only within 32 bits. */
  ghost predicate WellTyped(data: Ctx) {
    forall k | k in data && data[k].IntValue? :: IsInt32(data[k].i)
  }

  class MutablePatternMatchContext {
    var contextData: Ctx

    constructor ()
      ensures contextData == map[]
    {
      contextData := map[];
    }

    /** resetContext: afterwards every key reads as absent. */
    method ResetContext()
      modifies this
      ensures contextData == map[]
      ensures forall k: string :: Lookup(contextData, k) == Null
    {
      contextData := map[];
    }

    /** set: `key` now reads `value` (null included); no other key changes. */
    method Set(key: string, value: Value)
      modifies this
      ensures contextData == old(contextData)[key := value]
      ensures Lookup(contextData, key) == value
      ensures forall k :: k != key ==> Lookup(contextData, k) == Lookup(old(contextData), k)
    {
      contextData := contextData[key := value];
    }

    /** get: Optional.ofNullable of the stored value, so a stored null reads as empty. */
    method Get(key: string) returns (r: Option<Value>)
      ensures r.None? <==> (key !in contextData || contextData[key] == Null)
      ensures r.Some? ==> key in contextData && contextData[key] == r.value && r.value != Null
    {
      var rawValue := Lookup(contextData, key);
      if rawValue == Null {
        r := None;
      } else {
        r := Some(rawValue);
      }
    }

    /**
     * getOrCreate: the stored value when it is not null; otherwise the supplier's value,
     * which is also stored.
     */
    method GetOrCreate(key: string, supplier: () -> Value) returns (v: Value)
      modifies this
      ensures Lookup(old(contextData), key) != Null ==> v == old(contextData)[key] && contextData == old(contextData)
      ensures Lookup(old(contextData), key) == Null ==> v == supplier() && contextData == old(contextData)[key := v]
    {
      var rawValue := Lookup(contextData, key);
      if rawValue == Null {
        v := supplier();
        Set(key, v);
        return;
      }
      v := rawValue;
    }

    /** getOrDefault: the stored value, or `defaultValue` when it is absent or null. */
    method GetOrDefault(key: string, defaultValue: Value) returns (v: Value)
      ensures key in contextData && contextData[key] != Null ==> v == contextData[key]
      ensures (key !in contextData || contextData[key] == Null) ==> v == defaultValue
    {
      var rawValue := Lookup(contextData, key);
      v := if rawValue == Null then defaultValue else rawValue;
    }

    /**
     * increment: adds `value` to the Integer stored under `key` (0 when absent or null),
     * with Java int overflow. A non-Integer stored there would make Java throw a
     * ClassCastException, so the caller must not store one.
     */
    method Increment(key: string, value: int)
      requires IsInt32(value)
      requires Lookup(contextData, key).Null? || Lookup(contextData, key).IntValue?
      modifies this
      ensures var before := if Lookup(old(contextData), key).IntValue? then old(contextData)[key].i else 0;
        contextData == old(contextData)[key := IntValue(Wrap32(before + value))]
    {
      var current := GetOrDefault(key, IntValue(0));
      Set(key, IntValue(Wrap32(current.i + value)));
    }

    /** getOrPut: the stored value when it is not null; otherwise `initialValue`, which is also stored. */
    method GetOrPut(key: string, initialValue: Value) returns (v: Value)
      modifies this
      ensures Lookup(old(contextData), key) != Null ==> v == old(contextData)[key] && contextData == old(contextData)
      ensures Lookup(old(contextData), key) == Null ==> v == initialValue && contextData == old(contextData)[key := initialValue]
    {
      var rawValue := Lookup(contextData, key);
      if rawValue == Null {
        Set(key, initialValue);
        return initialValue;
      }
      v := rawValue;
    }
  }
}
