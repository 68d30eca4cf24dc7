/**
 `Optimizely::Experiments::Experiment#experiment`: when a flag is on, an
 element already declared on the page is declared again with a new tag and
 locator. The page object's element declarations are an abstract map from
 element name to (tag, locator); declaring an element replaces its entry.
 */
module Binding {
  import opened Flags
  import opened Config
  import Experiments

  type ElementName = string  // :search
  type Tag = string          // :text_field, :button
  type Locator = map<string, string>  // name: "q"

  datatype Declaration = Declaration(tag: Tag, locator: Locator)

  /** The singleton methods `Optimizely` defines (lib/optimizely.rb). */
  const FacadeMethods: set<string> :=
    {"configure", "all", "add", "load_file", "load_yaml", "load_json",
     "activate", "activated?", "while_activated"}

  /** The declarations after `experiment(name, element, tag, locator)` when
      the flag test is `activated?`: with the flag on, `element` is declared
      with `tag` and `locator`; otherwise nothing changes. Other elements are
      never touched. */
  function Redeclared(decls: map<ElementName, Declaration>, flags: map<Name, Value>, name: Name,
                      element: ElementName, tag: Tag, locator: Locator): (r: map<ElementName, Declaration>)
    ensures Activated(flags, name) ==> element in r && r[element] == Declaration(tag, locator)
    ensures !Activated(flags, name) ==> r == decls
    ensures forall e :: e != element ==> (e in r <==> e in decls)
    ensures forall e :: e != element && e in decls ==> r[e] == decls[e]
  {
    if Activated(flags, name) then decls[element := Declaration(tag, locator)] else decls
  }

  /** `experiment` as written: it asks `Optimizely.enabled?`, which the
      facade does not define, so the call raises NoMethodError. */
  function ExperimentAsWritten(decls: map<ElementName, Declaration>, flags: map<Name, Value>, name: Name,
                               element: ElementName, tag: Tag, locator: Locator): Result<map<ElementName, Declaration>>
  {
    if "enabled?" in FacadeMethods then Success(Redeclared(decls, flags, name, element, tag, locator))
    else Failure(NoMethodError("enabled?"))
  }

  datatype Result<T> = Success(value: T) | Failure(error: Error)

  /** As written, `experiment` raises whatever the flag holds, so no page
      ever gets its override, even where the flag is on and the override
      was meant to be declared. */
  lemma AsWrittenAlwaysRaises(decls: map<ElementName, Declaration>, flags: map<Name, Value>,
                              name: Name, element: ElementName, tag: Tag, locator: Locator)
    ensures "enabled?" !in FacadeMethods && "activated?" in FacadeMethods
    ensures ExperimentAsWritten(decls, flags, name, element, tag, locator) == Failure(NoMethodError("enabled?"))
    ensures Activated(flags, name) ==>
              Redeclared(decls, flags, name, element, tag, locator)[element] == Declaration(tag, locator)
  {
  }

  class Page {
    var elements: map<ElementName, Declaration>

    constructor ()
      ensures elements == map[]
    {
      elements := map[];
    }

    /** `text_field :search, name: "q"` and its kin: declares `element`,
        replacing an earlier declaration of the same name. */
    method Declare(tag: Tag, element: ElementName, locator: Locator)
      modifies this
      ensures elements == old(elements)[element := Declaration(tag, locator)]
    {
      elements := elements[element := Declaration(tag, locator)];
    }

    /** `experiment(name, element, tag, locator)`, with the flag test read as
        `activated?`: decided once, from the flags as they are now. */
    method Experiment(config: Config, name: Name, element: ElementName, tag: Tag, locator: Locator)
      modifies this
      ensures elements == Redeclared(old(elements), config.features.entries, name, element, tag, locator)
    {
      if Experiments.IsActivated(config, name) {
        Declare(tag, element, locator);
      }
    }

    /** `experiment(name, element, tag)`: the locator defaults to `{}`. */
    method ExperimentWithoutLocator(config: Config, name: Name, element: ElementName, tag: Tag)
      modifies this
      ensures elements == Redeclared(old(elements), config.features.entries, name, element, tag, map[])
    {
      Experiment(config, name, element, tag, map[]);
    }
  }

  /** The Google page of the functional tests: `search` is found by
      `name: "q"` unless `example_1` was activated first, and then by
      `aria_label: "Search"`; `submit` keeps `name: "btnK"` either way. */
  method GooglePage(activateFirst: bool) returns (search: Declaration, submit: Declaration)
    ensures search == if activateFirst then Declaration("text_field", map["aria_label" := "Search"])
                      else Declaration("text_field", map["name" := "q"])
    ensures submit == Declaration("button", map["name" := "btnK"])
  {
    var config := new Config();
    if activateFirst {
      var _ := Experiments.Activate(config, Sym("example_1"));
    }
    var page := new Page();
    page.Declare("text_field", "search", map["name" := "q"]);
    page.Declare("button", "submit", map["name" := "btnK"]);
    page.Experiment(config, Sym("example_1"), "search", "text_field", map["aria_label" := "Search"]);
    search, submit := page.elements["search"], page.elements["submit"];
  }

  /** The decision is made at declaration time: turning the flag off
      afterwards does not bring the old locator back. */
  method BindingIsNotLive() returns (search: Declaration, flagOn: bool)
    ensures search == Declaration("text_field", map["aria_label" := "Search"]) && !flagOn
  {
    var config := new Config();
    var _ := Experiments.Activate(config, Sym("example_1"));
    var page := new Page();
    page.Declare("text_field", "search", map["name" := "q"]);
    page.Experiment(config, Sym("example_1"), "search", "text_field", map["aria_label" := "Search"]);
    var _ := Experiments.Deactivate(config, Sym("example_1"));
    search := page.elements["search"];
    flagOn := Experiments.IsActivated(config, Sym("example_1"));
  }
}
