/**
 `Optimizely::Experiments::Features`: a flag holder of its own, with its own
 hash. The registry operations never read it; they read `Config.features`.
 */
module Features {
  import opened Flags
  import opened FlagHash

  class Features {
    /** `@features`, exposed through `attr_accessor :features`. */
    var features: Hash

    /** `@features = {}`. */
    constructor ()
      ensures fresh(features) && features.entries == map[]
    {
      features := new Hash();
    }

    /** `features = table`. */
    method SetFeatures(table: Hash)
      modifies this
      ensures features == table
    {
      features := table;
    }

    /** `configure`: `yield(self) if block_given?`. It makes no change of
        its own; the block, the caller's code, runs on the yielded object. */
    method Configure(blockGiven: bool) returns (yielded: Option<Features>)
      ensures blockGiven ==> yielded == Some(this)
      ensures !blockGiven ==> yielded == None
    {
      if blockGiven {
        yielded := Some(this);
      } else {
        yielded := None;
      }
    }

    /** `self[name] = value`: last write wins, every other entry unchanged. */
    method Store(name: Name, value: Value)
      modifies features
      ensures features.entries == old(features.entries)[name := value]
    {
      features.Store(name, value);
    }
  }

  /** `Features.new { |f| ... }`: the hash is set up first, then the new
      object itself is yielded to the block, when one is given. */
  method New(blockGiven: bool) returns (f: Features, yielded: Option<Features>)
    ensures fresh(f) && fresh(f.features) && f.features.entries == map[]
    ensures blockGiven ==> yielded == Some(f)
    ensures !blockGiven ==> yielded == None
  {
    f := new Features();
    yielded := f.Configure(blockGiven);
  }

  /** The class variable `@@default` behind `Features.default`. */
  class DefaultSlot {
    var instance: Features?

    /** Before the first call of `Features.default`, `@@default` is unset. */
    constructor ()
      ensures instance == null
    {
      instance := null;
    }

    /** `@@default ||= Features.new`: created on the first call, and the
        same object on every later call. */
    method Default() returns (f: Features)
      modifies this
      ensures old(instance) != null ==> f == old(instance)
      ensures old(instance) == null ==> fresh(f) && fresh(f.features) && f.features.entries == map[]
      ensures instance == f
    {
      if instance == null {
        instance := new Features();
      }
      f := instance;
    }
  }

  /** Two calls of `Features.default` answer the same object, and what the
      first caller stores is what the second one sees. */
  method DefaultIsShared(n: Name) returns (same: bool, seen: bool)
    ensures same && seen
  {
    var slot := new DefaultSlot();
    var first := slot.Default();
    first.Store(n, Bool(true));
    var second := slot.Default();
    same := first == second;
    seen := Activated(second.features.entries, n);
  }

  /** Writes made in a `Features.new` block persist in the new object. */
  method BlockWritesPersist(n: Name, v: Value) returns (stored: Value)
    ensures stored == v
  {
    var f, yielded := New(true);
    yielded.value.Store(n, v);
    stored := Lookup(f.features.entries, n);
  }
}
