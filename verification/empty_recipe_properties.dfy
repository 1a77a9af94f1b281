/**
 * EmptyRecipePropertyStorage, the shared null object recipes use when they carry no
 * properties. Its answers are measured against what any property storage answers from its
 * contents; the empty storage's contents are the empty map, and no operation changes them.
 */
module EmptyRecipeProperties {
  import opened Wrappers

  /** A recipe property, known by its key. */
  datatype RecipeProperty = RecipeProperty(key: string)

  /** What a property storage holds: a value per property. */
  type Contents<V> = map<RecipeProperty, V>

  // What any storage answers from its contents.

  function SizeOf<V>(contents: Contents<V>): nat { |contents| }

  function ValueOr<V>(contents: Contents<V>, property: RecipeProperty, defaultValue: V): V {
    if property in contents then contents[property] else defaultValue
  }

  function KeysOf<V>(contents: Contents<V>): set<string> {
    set p | p in contents :: p.key
  }

  function RawValueOf<V>(contents: Contents<V>, key: string): Option<V> {
    if RecipeProperty(key) in contents then Some(contents[RecipeProperty(key)]) else None
  }

  // The null object.

  /** The contents of the empty storage, before and after every operation. */
  function Empty<V>(): Contents<V> { map[] }

  /** The answer of a mutator and the contents it leaves. */
  datatype Change<V> = Change(accepted: bool, after: Contents<V>)

  /** store: refuses every property; the storage stays empty, so the property is still absent. */
  function Store<V>(property: RecipeProperty, value: V): (r: Change<V>)
    ensures !r.accepted && r.after == Empty<V>() && property !in r.after
  {
    Change(false, map[])
  }

  /** remove: there is nothing to remove. */
  function Remove<V>(property: RecipeProperty): (r: Change<V>)
    ensures !r.accepted && r.after == Empty<V>()
  {
    Change(false, map[])
  }

  /** freeze: has no effect. */
  function Freeze<V>(frozen: bool): (after: Contents<V>)
    ensures after == Empty<V>()
  {
    map[]
  }

  /** copy: null; the recipe builder makes a fresh storage itself. */
  function Copy<V>(): (r: Option<Contents<V>>)
    ensures r.None?
  {
    None
  }

  /** getSize: the size of the empty contents. */
  function GetSize(): (size: int)
    ensures size == SizeOf(Empty<int>()) && size == 0
  {
    0
  }

  /** getRecipeProperties: the entries of the empty contents. */
  function GetRecipeProperties<V(==)>():(entries: set<(RecipeProperty, V)>)
    ensures entries == set p | p in Empty<V>() :: (p, Empty<V>()[p])
    ensures |entries| == 0
  {
    {}
  }

  /** getRecipePropertyValue: what the empty contents answer, which is the default. */
  function GetRecipePropertyValue<V>(property: RecipeProperty, defaultValue: V): (v: V)
    ensures v == ValueOr(Empty<V>(), property, defaultValue)
  {
    defaultValue
  }

  /** hasRecipeProperty: whether the empty contents hold the property. */
  function HasRecipeProperty(property: RecipeProperty): (has: bool)
    ensures has == (property in Empty<int>())
    ensures !has
  {
    false
  }

  /** getRecipePropertyKeys: the keys of the empty contents. */
  function GetRecipePropertyKeys(): (keys: set<string>)
    ensures keys == KeysOf(Empty<int>())
    ensures keys == {}
  {
    {}
  }

  /** getRawRecipePropertyValue: null for every key. */
  function GetRawRecipePropertyValue<V>(key: string): (r: Option<V>)
    ensures r == RawValueOf(Empty<V>(), key)
    ensures r.None?
  {
    None
  }

  /**
   * The storage is consistent after any store: the property offered is not held, reading it
   * gives back the default, it is not among the keys, and the size stays 0.
   */
  lemma StoreIsForgotten<V>(property: RecipeProperty, value: V, defaultValue: V)
    ensures var r := Store(property, value);
      && !r.accepted
      && !HasRecipeProperty(property)
      && GetRecipePropertyValue(property, defaultValue) == ValueOr(r.after, property, defaultValue)
      && property.key !in GetRecipePropertyKeys()
      && GetRawRecipePropertyValue<V>(property.key) == RawValueOf(r.after, property.key)
      && GetSize() == SizeOf(r.after)
  {
  }

  /** The answers agree with each other: a size of 0, no keys, and no property held. */
  lemma AnswersAgree(property: RecipeProperty)
    ensures GetSize() == |GetRecipePropertyKeys()|
    ensures HasRecipeProperty(property) <==> property.key in GetRecipePropertyKeys()
    ensures HasRecipeProperty(property) <==> GetRawRecipePropertyValue<int>(property.key).Some?
  {
  }
}
