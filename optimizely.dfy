/**
 The `Optimizely` facade: singleton methods that hand each call to the
 `Experiments` registry, and two that are empty stubs (`configure` and
 `while_activated`). The facade has no `deactivate`.
 */
module Optimizely {
  import opened Flags
  import opened FlagHash
  import opened Config
  import opened Loading
  import Experiments

  /** `Optimizely.configure`: an empty stub. It never yields, returns
      `nil` and leaves the table alone. */
  method Configure(config: Config, blockGiven: bool) returns (yielded: Option<Hash>, r: Value)
    ensures yielded == None && r == Nil
  {
    yielded, r := None, Nil;
  }

  /** `Optimizely.all`: the same live hash as `Experiments.all`. */
  method All(config: Config) returns (table: Hash)
    ensures table == config.features
  {
    table := Experiments.All(config);
  }

  /** `Optimizely.add(name, value)`: exactly `Experiments.add`. */
  method Add(config: Config, name: Name, value: Value) returns (r: Value)
    modifies config.features
    ensures config.features.entries == old(config.features.entries)[name := value]
    ensures r == value
  {
    r := Experiments.Add(config, name, value);
  }

  /** `Optimizely.load_file(path)`: exactly `Experiments.load_file`. */
  method LoadFile(config: Config, path: string, fileExists: bool, ext: string,
                  decode: Format -> Decoded) returns (raised: Option<Error>)
    modifies config.features
    ensures Loaded(config.features.entries, raised) ==
              LoadFileSpec(old(config.features.entries), path, fileExists, ext, decode)
  {
    raised := Experiments.LoadFile(config, path, fileExists, ext, decode);
  }

  /** `Optimizely.load_yaml(file)`: exactly `Experiments.load_yaml`. */
  method LoadYaml(config: Config, decoded: Decoded) returns (raised: Option<Error>)
    modifies config.features
    ensures Loaded(config.features.entries, raised) == LoadDecoded(old(config.features.entries), decoded)
  {
    raised := Experiments.LoadYaml(config, decoded);
  }

  /** `Optimizely.load_json(file)`: exactly `Experiments.load_json`. */
  method LoadJson(config: Config, decoded: Decoded) returns (raised: Option<Error>)
    modifies config.features
    ensures Loaded(config.features.entries, raised) == LoadDecoded(old(config.features.entries), decoded)
  {
    raised := Experiments.LoadJson(config, decoded);
  }

  /** `Optimizely.activate(name)`: exactly `Experiments.activate`. */
  method Activate(config: Config, name: Name) returns (r: Value)
    modifies config.features
    ensures config.features.entries == old(config.features.entries)[name := Bool(true)]
    ensures r == Bool(true)
  {
    r := Experiments.Activate(config, name);
  }

  /** `Optimizely.activated?(name)`: always the registry's answer. */
  function IsActivated(config: Config, name: Name): (r: bool)
    reads config, config.features
    ensures r == Experiments.IsActivated(config, name)
    ensures r <==> name in config.features.entries && config.features.entries[name] == Bool(true)
  {
    Experiments.IsActivated(config, name)
  }

  /** `Optimizely.while_activated(name)`: an empty stub. The block never
      runs, whatever the flag holds. */
  method WhileActivated(config: Config, name: Name, blockGiven: bool) returns (ran: bool)
    ensures !ran
  {
    ran := false;
  }

  /** Where the facade is a stub it parts from the registry: a block given
      to `Experiments.configure` can switch a flag on, the same block given
      to `Optimizely.configure` is never run. */
  method ConfigureStubDiverges(n: Name) returns (viaRegistry: bool, viaFacade: bool)
    ensures viaRegistry && !viaFacade
  {
    var registryConfig := new Config();
    var yielded, _ := Experiments.Configure(registryConfig, true);
    yielded.value.Store(n, Bool(true));
    viaRegistry := Experiments.IsActivated(registryConfig, n);

    var facadeConfig := new Config();
    var nothing, _ := Configure(facadeConfig, true);
    assert nothing == None;
    viaFacade := IsActivated(facadeConfig, n);
  }

  /** With the flag on and a block given, `Experiments.while_activated`
      runs the block and `Optimizely.while_activated` does not. */
  method WhileActivatedStubDiverges(n: Name) returns (viaRegistry: bool, viaFacade: bool)
    ensures viaRegistry && !viaFacade
  {
    var config := new Config();
    var _ := Activate(config, n);
    viaRegistry := Experiments.WhileActivated(config, n, true);
    viaFacade := WhileActivated(config, n, true);
  }
}
