/**
 `Optimizely::Experiments`: the registry operations. None of them keeps
 state of its own; each reads or writes the hash currently stored in
 `Config.features`, passed here as the `config` object.
 */
module Experiments {
  import opened Flags
  import opened FlagHash
  import opened Config
  import opened Loading

  /** `configure`: with a block, yields the live table to it; without one,
      returns the live table. Either way the caller gets the stored hash
      itself, and nothing changes here. */
  method Configure(config: Config, blockGiven: bool) returns (yielded: Option<Hash>, returned: Option<Hash>)
    ensures blockGiven ==> yielded == Some(config.features) && returned == None
    ensures !blockGiven ==> yielded == None && returned == Some(config.features)
  {
    if blockGiven {
      yielded, returned := Some(config.features), None;
    } else {
      yielded, returned := None, Some(config.features);
    }
  }

  /** `all`: the live table, not a copy. */
  method All(config: Config) returns (table: Hash)
    ensures table == config.features
  {
    table := config.features;
  }

  /** `add(name, value)`: stores `value` as given under `name`; it is what
      the assignment returns. */
  method Add(config: Config, name: Name, value: Value) returns (r: Value)
    modifies config.features
    ensures config.features.entries == old(config.features.entries)[name := value]
    ensures r == value
    ensures Activated(config.features.entries, name) <==> value == Bool(true)
  {
    config.features.Store(name, value);
    r := value;
  }

  /** `activate(name)` is `add(name, true)`. */
  method Activate(config: Config, name: Name) returns (r: Value)
    modifies config.features
    ensures config.features.entries == old(config.features.entries)[name := Bool(true)]
    ensures r == Bool(true) && Activated(config.features.entries, name)
  {
    r := Add(config, name, Bool(true));
  }

  /** `deactivate(name)` is `add(name, false)`. */
  method Deactivate(config: Config, name: Name) returns (r: Value)
    modifies config.features
    ensures config.features.entries == old(config.features.entries)[name := Bool(false)]
    ensures r == Bool(false) && !Activated(config.features.entries, name)
  {
    r := Add(config, name, Bool(false));
  }

  /** `activated?(name)`: `true` only for the literal `true`; `false` for an
      absent name, `nil`, `false` and every other value, truthy or not. */
  function IsActivated(config: Config, name: Name): (r: bool)
    reads config, config.features
    ensures r <==> name in config.features.entries && config.features.entries[name] == Bool(true)
  {
    Activated(config.features.entries, name)
  }

  /** `while_activated(name) { ... }`: the block runs once when the flag is
      `true` and a block was given, never otherwise; the table is only read. */
  method WhileActivated(config: Config, name: Name, blockGiven: bool) returns (ran: bool)
    ensures ran <==> blockGiven && name in config.features.entries
                     && config.features.entries[name] == Bool(true)
  {
    ran := false;
    if IsActivated(config, name) {
      if blockGiven {
        ran := true;
      }
    }
  }

  /** `load_experiments(struct)`: `add(key.to_sym, value)` for each pair in
      order, stopping at the first key that has no `to_sym`. */
  method LoadExperiments(config: Config, doc: Document) returns (raised: Option<Error>)
    modifies config.features
    ensures Loaded(config.features.entries, raised) == LoadPairs(old(config.features.entries), doc)
  {
    var i := 0;
    raised := None;
    while i < |doc|
      invariant 0 <= i <= |doc|
      invariant LoadPairs(old(config.features.entries), doc) == LoadPairs(config.features.entries, doc[i..])
    {
      var key, value := doc[i].0, doc[i].1;
      assert doc[i..][0] == (key, value) && doc[i..][1..] == doc[i + 1..];
      match ToSym(key)
      case None =>
        raised := Some(NoMethodError("to_sym"));
        return;
      case Some(name) =>
        var _ := Add(config, name, value);
      i := i + 1;
    }
  }

  /** `load_yaml(file)`: `YAML.load(file)`, then `load_experiments`. */
  method LoadYaml(config: Config, decoded: Decoded) returns (raised: Option<Error>)
    modifies config.features
    ensures Loaded(config.features.entries, raised) == LoadDecoded(old(config.features.entries), decoded)
  {
    match decoded
    case Unparsable =>
      raised := Some(ParseError);
    case Decoded(doc) =>
      raised := LoadExperiments(config, doc);
  }

  /** `load_json(file)`: `JSON.load(file)`, then `load_experiments`. */
  method LoadJson(config: Config, decoded: Decoded) returns (raised: Option<Error>)
    modifies config.features
    ensures Loaded(config.features.entries, raised) == LoadDecoded(old(config.features.entries), decoded)
  {
    match decoded
    case Unparsable =>
      raised := Some(ParseError);
    case Decoded(doc) =>
      raised := LoadExperiments(config, doc);
  }

  /** `load_file(path)`: opens the file, then dispatches on `File.extname`.
      Whether the file opens, its extension and the decoders are given. */
  method LoadFile(config: Config, path: string, fileExists: bool, ext: string,
                  decode: Format -> Decoded) returns (raised: Option<Error>)
    modifies config.features
    ensures Loaded(config.features.entries, raised) ==
              LoadFileSpec(old(config.features.entries), path, fileExists, ext, decode)
  {
    if !fileExists {
      return Some(FileNotFound(path));
    }
    match FormatOf(ext)
    case Some(Yaml) =>
      raised := LoadYaml(config, decode(Yaml));
    case Some(Json) =>
      raised := LoadJson(config, decode(Json));
    case None =>
      raised := Some(FileTypeNotFound(path));
  }

  /** Writes made through the hash that `all` returns are seen by
      `activated?`, because it is the stored hash itself. */
  method AllIsLive(n: Name) returns (before: bool, after: bool)
    ensures !before && after
  {
    var config := new Config();
    before := IsActivated(config, n);
    var table := All(config);
    table.Store(n, Bool(true));
    after := IsActivated(config, n);
  }

  /** After `Config.features = table`, every registry operation uses `table`
      and the hash stored before is left behind. */
  method ReassignedTableIsUsed(n: Name) returns (inNew: bool, inOld: bool)
    ensures inNew && !inOld
  {
    var config := new Config();
    var previous := config.features;
    var table := new Hash();
    config.SetFeatures(table);
    var _ := Activate(config, n);
    inNew := Activated(table.entries, n);
    inOld := Activated(previous.entries, n);
  }
}
