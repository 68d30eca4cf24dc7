/**
 `Optimizely::Experiments::Config`: the class-level `@features` hash that
 every registry operation reads and writes. The one `Config` object stands
 for the class itself; its constructor is the class body running once.
 */
module Config {
  import opened Flags
  import opened FlagHash

  class Config {
    /** `Config.features`, read through the `attr_accessor` reader. */
    var features: Hash

    /** `@features = {}` when the class body is evaluated. */
    constructor ()
      ensures fresh(features) && features.entries == map[]
    {
      features := new Hash();
    }

    /** `Config.features = table`: later reads return `table` itself. */
    method SetFeatures(table: Hash)
      modifies this
      ensures features == table
    {
      features := table;
    }

    /** `yield(features) if block_given?`: hands the block the stored hash
        itself, not a copy, and changes nothing of its own. The block is the
        caller's code and runs on the object returned here. */
    method Configure(blockGiven: bool) returns (yielded: Option<Hash>)
      ensures blockGiven ==> yielded == Some(features)
      ensures !blockGiven ==> yielded == None
    {
      if blockGiven {
        yielded := Some(features);
      } else {
        yielded := None;
      }
    }
  }

  /** Writes made by a `Config.configure` block persist in `Config.features`. */
  method ConfigureWritesPersist(n: Name) returns (before: bool, after: bool)
    ensures !before && after
  {
    var config := new Config();
    before := Activated(config.features.entries, n);
    var yielded := config.Configure(true);
    yielded.value.Store(n, Bool(true));
    after := Activated(config.features.entries, n);
  }
}
