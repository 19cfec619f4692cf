/**
 * A Dictionary<TKey, TValue> as a mutable map, and the GetOrAdd extension:
 * look a key up, and only when it is missing make a value with the factory
 * and store it.
 */
module DictionaryExtensions {

  class Dictionary<K(==), V> {
    var entries: map<K, V>

    constructor ()
      ensures entries == map[]
    {
      entries := map[];
    }

    /** Add: the key must not be present yet (Add throws otherwise). */
    method Add(key: K, value: V)
      requires key !in entries
      modifies this
      ensures entries == old(entries)[key := value]
    {
      entries := entries[key := value];
    }
  }

  /**
   * GetOrAdd: the stored value when the key is present (the map unchanged),
   * otherwise the factory's value for the key, which is then stored.
   */
  method GetOrAdd<K(==), V>(dic: Dictionary<K, V>, key: K, valueFactory: K -> V) returns (value: V)
    modifies dic
    ensures key in old(dic.entries) ==> value == old(dic.entries)[key] && dic.entries == old(dic.entries)
    ensures key !in old(dic.entries) ==> value == valueFactory(key) && dic.entries == old(dic.entries)[key := value]
    ensures key in dic.entries && dic.entries[key] == value
    ensures forall k :: k in old(dic.entries) ==> k in dic.entries && dic.entries[k] == old(dic.entries)[k]
    ensures dic.entries.Keys == old(dic.entries.Keys) + {key}
    ensures |dic.entries| == |old(dic.entries)| + (if key in old(dic.entries) then 0 else 1)
  {
    if key in dic.entries {
      value := dic.entries[key];
    } else {
      value := valueFactory(key);
      dic.Add(key, value);
    }
  }

  /**
   * Two lookups of one key give the same value, whatever the second factory
   * would have made: the first call's value is the one kept.
   */
  method GetOrAddTwice<K(==), V>(dic: Dictionary<K, V>, key: K, first: K -> V, second: K -> V)
    returns (v1: V, v2: V)
    modifies dic
    ensures v1 == v2
    ensures dic.entries == old(dic.entries)[key := v1]
  {
    v1 := GetOrAdd(dic, key, first);
    v2 := GetOrAdd(dic, key, second);
  }
}
