# optimizely-experiments, modelled in Dafny

The Ruby gem `optimizely-experiments` keeps a process-wide table of feature
flags ("experiments"). A page object reads that table when it declares its
elements, and picks the locator of an element from it. This project models:

- the shared flag table. It is the class-level hash `Config.features`, an
  object reached by reference (`FlagHash.Hash`, `Config.Config`);
- the registry operations of `Optimizely::Experiments` (`Experiments`). These
  are `configure`, `all`, `add`, `activate`, `deactivate`, `activated?`,
  `while_activated`, `load_experiments`, `load_yaml`, `load_json` and
  `load_file`. Their effect on the table is given by functions and lemmas in
  `Flags` and `Loading`;
- the separate `Features` holder with its lazily created `Features.default`
  (`Features`);
- `Experiment#experiment`, which declares an element again when a flag is on
  (`Binding`);
- the `Optimizely` facade (`Optimizely`). Where it delegates it agrees with
  the registry. Where it is a stub (`configure`, `while_activated`) it does
  not.

Flag names are Ruby hash keys, so `Name` is `Sym(id)` or `Str(id)`: `:a` and
`"a"` are different keys until `to_sym` makes them the same. Values are
stored exactly as given (`Value` covers `true`, `false`, `nil`, integers,
strings and symbols). `activated?` is true only for the literal `true`.

Four behaviours of the code that a reader might not expect:

- `activated?` returns `false` for a name that was never added. It gives no
  warning and no third answer.
- `all` and `configure` without a block return the live hash, not a copy.
- Loaded values are not coerced to booleans.
- A load is not all-or-nothing. A key without `to_sym` (an integer key in a
  YAML file, say) raises NoMethodError in the middle of the loop. The pairs
  before it stay in the table (`Loading.LoadStopsAtFirstBadKey`).

A Ruby block given to `configure`, `Features.new` or `while_activated` is the
caller's code. The model returns the object that is yielded to the block, and
the caller runs its writes on that object. The client methods
`Config.ConfigureWritesPersist`, `Features.BlockWritesPersist` and
`Optimizely.ConfigureStubDiverges` show such writes landing in the table.

## Model

| member | source | states |
|---|---|---|
| `Flags.Activated` | lib/optimizely/experiments.rb:133-136 | `activated?` is true exactly when the name is present and holds the literal `true`; absent names, `nil`, `false` and every other value give `false` |
| `Flags.ToSym` | lib/optimizely/experiments.rb:166 | a String or Symbol key becomes the Symbol of the same spelling; any other key has no `to_sym` |
| `Flags.AssignSnoc` | lib/optimizely/experiments.rb:165-167 | one more assignment at the end of a run changes only its own key |
| `Flags.AssignLastWins` | lib/optimizely/experiments.rb:43-45 | after a run of `table[n] = v` each name holds the value last written to it, uncoerced; a name no write mentions keeps its entry or its absence |
| `Flags.ActivatedAfterAssign` | lib/optimizely/experiments.rb:133-136 | after a run of writes, `activated?(n)` is whether the last write to `n` was `true`, or the earlier answer when nothing wrote `n` |
| `FlagHash.Hash.Store` | lib/optimizely/experiments.rb:44 | `hash[name] = value` replaces the entry for `name` and leaves every other key alone |
| `Config.Config.constructor` | lib/optimizely/experiments/config.rb:5 | the class-level `features` hash starts empty |
| `Config.Config.SetFeatures` | lib/optimizely/experiments/config.rb:8 | the accessor's writer stores the given hash object itself, and later reads return it |
| `Config.Config.Configure` | lib/optimizely/experiments/config.rb:10-12 | with a block, yields the stored hash itself; without one, yields nothing; changes nothing of its own |
| `Config.ConfigureWritesPersist` | lib/optimizely/experiments/config.rb:10-12 | a flag written in a `Config.configure` block is activated in `Config.features` afterwards |
| `Loading.Symbolized` | lib/optimizely/experiments.rb:165-167 | the document's pairs become `(key.to_sym, value)` assignments, one per pair, in order, values unchanged |
| `Loading.LoadIsAssign` | lib/optimizely/experiments.rb:164-168 | a document whose keys all have `to_sym` loads completely, as the run of assignments `table[key.to_sym] = value` in document order |
| `Loading.LoadStopsAtFirstBadKey` | lib/optimizely/experiments.rb:165-167 | the first key without `to_sym` raises NoMethodError; every pair before it stays applied and none after it is |
| `Loading.LoadedKeysAreSymbols` | lib/optimizely/experiments.rb:166 | every entry a load adds is keyed by a Symbol |
| `Loading.StringAndSymbolKeysCollide` | lib/optimizely/experiments.rb:166 | keys `"a"` and `:a` both become `:a`, and the later pair's value wins |
| `Loading.FormatOf` | lib/optimizely/experiments.rb:59-66 | `.yaml` and `.yml` select YAML, `.json` selects JSON, each exactly and case-sensitively; every other extension selects nothing |
| `Loading.MissingFileReportedFirst` | lib/optimizely/experiments.rb:57-59 | a file that cannot be opened raises before its extension is checked, and the table is unchanged |
| `Loading.UnknownExtensionRaises` | lib/optimizely/experiments.rb:64-65 | any other extension raises "File type not found" naming the path, and the table is unchanged |
| `Loading.FormatsAgree` | lib/optimizely/experiments.rb:59-63 | a YAML file and a JSON file that decode to the same pairs leave the same table |
| `Experiments.Configure` | lib/optimizely/experiments.rb:13-19 | with a block, yields the live table; without one, returns the live table; nothing changes |
| `Experiments.All` | lib/optimizely/experiments.rb:29-31 | returns the stored hash object itself, not a copy |
| `Experiments.Add` | lib/optimizely/experiments.rb:43-45 | the table becomes the old table with `name` mapped to `value` uncoerced; returns `value`; afterwards `activated?(name)` holds exactly when `value` is `true` |
| `Experiments.Activate` | lib/optimizely/experiments.rb:108-110 | same new table as `add(name, true)`; the flag is then activated |
| `Experiments.Deactivate` | lib/optimizely/experiments.rb:120-122 | same new table as `add(name, false)`; the flag is then not activated |
| `Experiments.IsActivated` | lib/optimizely/experiments.rb:133-136 | reads the current table: true exactly when it holds the literal `true` under the name |
| `Experiments.WhileActivated` | lib/optimizely/experiments.rb:149-153 | the block runs exactly when one is given and the flag holds `true`; the table is only read |
| `Experiments.LoadExperiments` | lib/optimizely/experiments.rb:164-168 | the loop leaves the table and the raised error that `LoadPairs` gives for the old table and the document |
| `Experiments.LoadYaml` | lib/optimizely/experiments.rb:80-83 | a parse error leaves the table unchanged; a decoded document is loaded by `load_experiments` |
| `Experiments.LoadJson` | lib/optimizely/experiments.rb:95-98 | a parse error leaves the table unchanged; a decoded document is loaded by `load_experiments` |
| `Experiments.LoadFile` | lib/optimizely/experiments.rb:56-67 | opens the file first, then picks the decoder from the extension or raises; the new table is the one `LoadFileSpec` gives |
| `Experiments.AllIsLive` | lib/optimizely/experiments.rb:29-31 | a write made through the hash that `all` returned is seen by `activated?` |
| `Experiments.ReassignedTableIsUsed` | lib/optimizely/experiments/config.rb:8 | after `Config.features = t`, `activate` writes to `t`, and the hash stored before is not touched |
| `Features.Features.constructor` | lib/optimizely/experiments/features.rb:9-10 | a new holder starts with a fresh, empty `features` hash |
| `Features.Features.SetFeatures` | lib/optimizely/experiments/features.rb:4 | the accessor's writer stores the given hash object itself |
| `Features.Features.Configure` | lib/optimizely/experiments/features.rb:30-32 | with a block, yields the holder itself; without one, yields nothing; changes nothing of its own |
| `Features.Features.Store` | lib/optimizely/experiments/features.rb:40-42 | `self[name] = value` replaces the entry for `name` and leaves every other entry alone |
| `Features.New` | lib/optimizely/experiments/features.rb:9-13 | the empty hash is set up first, then the new holder itself is yielded to the block when one is given |
| `Features.BlockWritesPersist` | lib/optimizely/experiments/features.rb:12 | a value written in the `Features.new` block is stored, as written, in the new holder |
| `Features.DefaultSlot.constructor` | lib/optimizely/experiments/features.rb:19 | `@@default` is unset before the first call |
| `Features.DefaultSlot.Default` | lib/optimizely/experiments/features.rb:18-20 | the first call creates a fresh, empty holder and keeps it; every later call returns that same holder |
| `Features.DefaultIsShared` | lib/optimizely/experiments/features.rb:18-20 | two calls give the same object, and a flag stored through the first is seen through the second |
| `Binding.Redeclared` | lib/optimizely/experiments/experiment.rb:5-9 | with the flag on, `element` is declared with `tag` and `locator`; otherwise the declarations are unchanged; other elements are never touched |
| `Binding.AsWrittenAlwaysRaises` | lib/optimizely/experiments/experiment.rb:6 | the facade defines `activated?` but not `enabled?`, so `experiment` as written raises NoMethodError whatever the flag holds, even where the override was meant |
| `Binding.Page.Declare` | example.rb:29 | declaring an element replaces its earlier declaration and leaves the others |
| `Binding.Page.Experiment` | lib/optimizely/experiments/experiment.rb:5-9 | the new declarations are `Redeclared` of the old ones and the flags at the time of the call |
| `Binding.Page.ExperimentWithoutLocator` | lib/optimizely/experiments/experiment.rb:5 | an omitted locator is the empty map |
| `Binding.GooglePage` | test/functional/google_test.rb:7-31 | `search` is found by `name: "q"`, or by `aria_label: "Search"` when `example_1` is activated before the page's declarations are evaluated; `submit` keeps `name: "btnK"`. The test activates inside the test method; the `Google` page class is not part of this model, and if its body ran when the file loaded, `search` would keep `name: "q"` (see `Binding.BindingIsNotLive`) |
| `Binding.BindingIsNotLive` | lib/optimizely/experiments/experiment.rb:5-9 | deactivating the flag after the declaration leaves the override in place |
| `Optimizely.Configure` | lib/optimizely.rb:15-17 | the stub never yields, returns `nil` and changes nothing |
| `Optimizely.All` | lib/optimizely.rb:25-27 | returns the same live hash as `Experiments.all` |
| `Optimizely.Add` | lib/optimizely.rb:39-41 | same new table and result as `Experiments.add` |
| `Optimizely.LoadFile` | lib/optimizely.rb:52-54 | same new table and error as `Experiments.load_file` |
| `Optimizely.LoadYaml` | lib/optimizely.rb:67-69 | same new table and error as `Experiments.load_yaml` |
| `Optimizely.LoadJson` | lib/optimizely.rb:81-83 | same new table and error as `Experiments.load_json` |
| `Optimizely.Activate` | lib/optimizely.rb:93-95 | same new table and result as `Experiments.activate` |
| `Optimizely.IsActivated` | lib/optimizely.rb:106-108 | always equals `Experiments.activated?` on the same table |
| `Optimizely.WhileActivated` | lib/optimizely.rb:121-123 | the stub never runs the block, whatever the flag holds |
| `Optimizely.ConfigureStubDiverges` | lib/optimizely.rb:15-17 | a block that turns a flag on works through `Experiments.configure` and has no effect through `Optimizely.configure` |
| `Optimizely.WhileActivatedStubDiverges` | lib/optimizely.rb:121-123 | with the flag on, `Experiments.while_activated` runs the block and `Optimizely.while_activated` does not |

## Findings

| source | as written | input that shows it | evidently intended | confidence | as-written member | corrected member |
|---|---|---|---|---|---|---|
| lib/optimizely/experiments/experiment.rb:6 | `experiment` asks `Optimizely.enabled?`, and `Optimizely` defines no such method (lib/optimizely.rb:15-123 has `activated?`) | `activate(:example_1)`, then `experiment(:example_1, :search, :text_field, aria_label: "Search")`: NoMethodError instead of the override | `Optimizely.activated?(name)` | high, not executed (lib/optimizely/experiments/version.rb is not part of this model) | `Binding.AsWrittenAlwaysRaises` | `Binding.Page.Experiment` |

## Left out

- `File.open`, `File.extname`, `YAML.load` and `JSON.load` are foreign calls. They become parameters of `LoadFile`, `LoadYaml` and `LoadJson`: whether the file opens, its extension, and the decoder's result for each format.
- The file handle that `load_file` opens is never closed. Handles are not modelled.
- A decoded document is modelled as a sequence of key/value pairs. A document whose top level is not a mapping (an array, or the `false` that YAML gives for an empty file) is not modelled.
- Ruby hashes keep insertion order. The table is a Dafny `map`, so the order in which `all` enumerates entries is not modelled.
- Keys other than Strings and Symbols passed straight to `add` are not modelled. Values other than `true`, `false`, `nil`, integers, strings and symbols (floats, arrays, hashes) are not modelled either. None of those is `== true`, so `activated?` is `false` for them, as it is for the modelled non-`true` values.
- Config.Config.SetFeatures and Features.Features.SetFeatures: only plain hashes with no default value or default proc are modelled. Ruby's writers accept any object. After `Config.features = Hash.new(true)`, `activated?` of a never-added name is `true`; after `Config.features = nil`, every registry call raises NoMethodError. Neither is modelled.
- Experiments.LoadExperiments, Experiments.LoadYaml, Experiments.LoadJson, Experiments.LoadFile and the facade's Optimizely.LoadYaml, Optimizely.LoadJson, Optimizely.LoadFile: Ruby returns the decoded document (`Hash#each` returns its receiver). The model returns only the raised error.
- Experiments.Configure: with a block, Ruby returns whatever the block returns. The model returns `None` there.
- Experiments.WhileActivated: Ruby returns the block's value, or `nil`. The model returns only whether the block ran.
- Page-object metaprogramming (`text_field`, `button`, `page_url`, the `send(tag, ...)` dispatch) is modelled only as an update to an abstract map of element declarations.
- `experiment` is an instance method of `Experiment`, while example.rb calls it in a class body after including another module. Method lookup through `include` and class-level calls is not modelled.
- Watir browser driving and the demo scripts example.rb and example_2.rb are outside the core. They only drive a browser.
- The `require` of the version file and the reopening of Ruby classes and modules are build plumbing with no behaviour.
- Single-threaded Ruby. No concurrency is modelled.
