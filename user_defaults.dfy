/** `UserDefaults.standard`, which several stores read at start-up and write in
    their `didSet` observers: a dictionary from key to a property-list value. The
    typed getters are stated over the dictionary, so that what a store reads at
    start-up can be written as a function of it. */
module UserDefaultsStore {
  import opened Wrappers
  import opened Json

  datatype DefaultsValue =
    | IntValue(i: int)
    | BoolValue(b: bool)
    | StringValue(s: string)
    | StringArray(items: seq<string>)
    | DateValue(at: int)
      /** A String whose text is JSON, kept as the value the text parses to. */
    | JsonString(json: Json)

  /** `integer(forKey:)`: 0 when the key is missing; a stored Bool reads as 0 or 1. */
  function IntegerIn(store: map<string, DefaultsValue>, key: string): (n: int)
    ensures key !in store ==> n == 0
    ensures key in store && store[key].IntValue? ==> n == store[key].i
  {
    if key !in store then 0
    else match store[key]
      case IntValue(i) => i
      case BoolValue(b) => if b then 1 else 0
      case _ => 0
  }

  /** `bool(forKey:)`: false when the key is missing; a stored number reads as `!= 0`. */
  function BoolIn(store: map<string, DefaultsValue>, key: string): (b: bool)
    ensures key !in store ==> !b
    ensures key in store && store[key].BoolValue? ==> b == store[key].b
  {
    if key !in store then false
    else match store[key]
      case BoolValue(b) => b
      case IntValue(i) => i != 0
      case _ => false
  }

  /** `object(forKey:) as? Bool`: nil unless a Bool is stored. */
  function OptionalBoolIn(store: map<string, DefaultsValue>, key: string): (r: Option<bool>)
    ensures r.Some? <==> key in store && store[key].BoolValue?
  {
    if key in store && store[key].BoolValue? then Some(store[key].b) else None
  }

  /** `string(forKey:)`. */
  function StringIn(store: map<string, DefaultsValue>, key: string): (r: Option<string>)
    ensures r.Some? <==> key in store && store[key].StringValue?
  {
    if key in store && store[key].StringValue? then Some(store[key].s) else None
  }

  /** `stringArray(forKey:)`. */
  function StringArrayIn(store: map<string, DefaultsValue>, key: string): (r: Option<seq<string>>)
    ensures r.Some? <==> key in store && store[key].StringArray?
  {
    if key in store && store[key].StringArray? then Some(store[key].items) else None
  }

  /** `object(forKey:) as? Date`. */
  function DateIn(store: map<string, DefaultsValue>, key: string): (r: Option<int>)
    ensures r.Some? <==> key in store && store[key].DateValue?
  {
    if key in store && store[key].DateValue? then Some(store[key].at) else None
  }

  /** A value written under a key is what every getter of its kind reads back. */
  lemma SetGetRoundTrip(store: map<string, DefaultsValue>, key: string, i: int, b: bool, s: string, items: seq<string>)
    ensures IntegerIn(store[key := IntValue(i)], key) == i
    ensures BoolIn(store[key := BoolValue(b)], key) == b
    ensures OptionalBoolIn(store[key := BoolValue(b)], key) == Some(b)
    ensures StringIn(store[key := StringValue(s)], key) == Some(s)
    ensures StringArrayIn(store[key := StringArray(items)], key) == Some(items)
    ensures DateIn(store[key := DateValue(i)], key) == Some(i)
  {
  }

  class UserDefaults {
    var store: map<string, DefaultsValue>

    constructor(initial: map<string, DefaultsValue>)
      ensures store == initial
    {
      store := initial;
    }

    /** `set(_:forKey:)`: only that key changes. */
    method Set(key: string, v: DefaultsValue)
      modifies this
      ensures store == old(store)[key := v]
    {
      store := store[key := v];
    }

    /** `set(nil, forKey:)` and `removeObject(forKey:)`: the key is gone. */
    method Remove(key: string)
      modifies this
      ensures store == old(store) - {key}
    {
      store := store - {key};
    }
  }
}
