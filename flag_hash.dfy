/**
 The Ruby Hash object that holds the flags. It is an object, not a value:
 whoever holds a reference to it sees every later assignment made through
 any other reference.
 */
module FlagHash {
  import opened Flags

  class Hash {
    var entries: map<Name, Value>

    /** `{}` */
    constructor ()
      ensures entries == map[]
    {
      entries := map[];
    }

    /** `hash[name] = value`: last write wins, every other key unchanged. */
    method Store(name: Name, value: Value)
      modifies this
      ensures entries == old(entries)[name := value]
    {
      entries := entries[name := value];
    }
  }
}
