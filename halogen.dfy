/**
 * `Halogen` and its `ClassMethods`: the per-class definitions registry,
 * created on first use; `render`, which assigns one key per property
 * definition and then hands over to the embed and link renderers; and
 * `render_definitions`, which folds the enabled definitions of one type, in
 * declaration order, into a hash. Also the module's memoised configuration.
 */
module Halogen {
  import opened Wrappers
  import opened Ruby
  import opened OrderedHash
  import opened HalogenDefinition
  import opened EmbedsDefinition

  /** The registry key under which property definitions are stored. */
  const PropertyType: string := "Halogen::Properties::Definition"

  /** `Halogen::Definitions`: the definitions of a class, grouped by type tag, each group in declaration order. */
  class DefinitionRegistry {
    var entries: map<string, seq<Definition>>

    constructor ()
      ensures entries == map[]
    {
      entries := map[];
    }

    /** `fetch(tag, [])`. */
    function Fetch(tag: string): seq<Definition>
      reads this
    {
      if tag in entries then entries[tag] else []
    }
  }

  /** A value in the caller's `representer_options` hash: an ordinary object or a representer class. */
  datatype OptionEntry = Data(v: Value) | RepresenterRef(representer: RepresenterClass)

  predicate EntryTruthy(e: OptionEntry) {
    e.RepresenterRef? || Truthy(e.v)
  }

  /** The `representer_options` hash that `render` receives from its caller and updates. */
  class RenderOptions {
    var entries: map<string, OptionEntry>

    constructor (entries: map<string, OptionEntry>)
      ensures this.entries == entries
    {
      this.entries := entries;
    }
  }

  /** `get_embeds` / `get_links`: given the resource, the result so far and the options, the result they leave. */
  type Hook = (Value, Hash<Value>, map<string, OptionEntry>) -> Hash<Value>

  /** The hash step 1 of `render` builds: each property name assigned `get_property_<name>(resource)` in turn. */
  function PropertyHash(props: seq<Definition>, resource: Value, getProperty: (string, Value) -> Value): Hash<Value> {
    StoreAll(PropertyPairs(props, resource, getProperty))
  }

  function PropertyPairs(props: seq<Definition>, resource: Value, getProperty: (string, Value) -> Value)
    : seq<(string, Value)>
  {
    seq(|props|, k requires 0 <= k < |props| => (props[k].name, getProperty(props[k].name, resource)))
  }

  function Names(defs: seq<Definition>): seq<string> {
    seq(|defs|, k requires 0 <= k < |defs| => defs[k].name)
  }

  /**
   * The indices of the definitions `render_definitions` hands to its block:
   * those whose `enabled?` is truthy, in order; the first `enabled?` that
   * raises aborts the walk.
   */
  function EnabledIndices(defs: seq<Definition>, ctx: Instance): (r: Result<seq<nat>, Error>)
    ensures r.Ok? ==> forall j :: 0 <= j < |r.value| ==> r.value[j] < |defs|
    decreases |defs|
  {
    if defs == [] then Ok([])
    else
      var n := |defs| - 1;
      match EnabledIndices(defs[..n], ctx)
      case Err(e) => Err(e)
      case Ok(idx) =>
        match Enabled(defs[n], ctx)
        case Err(e) => Err(e)
        case Ok(v) => Ok(if Truthy(v) then idx + [n] else idx)
  }

  /** The hash the block builds from `{}` when called on `defs[idx[0]]`, `defs[idx[1]]`, ... in turn. */
  function FoldSelected(step: (Definition, Hash<Value>) -> Hash<Value>, defs: seq<Definition>, idx: seq<nat>)
    : Hash<Value>
    requires forall j :: 0 <= j < |idx| ==> idx[j] < |defs|
    decreases |idx|
  {
    if idx == [] then []
    else step(defs[idx[|idx| - 1]], FoldSelected(step, defs, idx[..|idx| - 1]))
  }

  /** What `render_definitions` returns for the definitions `defs` and the block `step`. */
  function RenderFold(defs: seq<Definition>, ctx: Instance, step: (Definition, Hash<Value>) -> Hash<Value>)
    : (r: Result<Hash<Value>, Error>)
    ensures defs == [] ==> r == Ok([])
    ensures r.Ok? ==> forall i :: 0 <= i < |defs| ==> Enabled(defs[i], ctx).Ok?
    ensures r.Err? ==> exists i :: 0 <= i < |defs| && Enabled(defs[i], ctx) == Err(r.error)
                                   && forall j :: 0 <= j < i ==> Enabled(defs[j], ctx).Ok?
  {
    match EnabledIndices(defs, ctx)
    case Err(e) => EnabledIndicesFirstError(defs, ctx); Err(e)
    case Ok(idx) => EnabledIndicesExact(defs, ctx); Ok(FoldSelected(step, defs, idx))
  }

  /**
   * A class that includes `Halogen`: its lazily created registry, the
   * instance its guards are evaluated against (the class itself), and the
   * methods the Properties, Embeds and Links modules give it.
   */
  class RepresenterClass {
    var definitions: DefinitionRegistry?
    const context: Instance
    const getProperty: (string, Value) -> Value
    const getEmbeds: Option<Hook>
    const getLinks: Option<Hook>

    constructor (context: Instance, getProperty: (string, Value) -> Value,
                 getEmbeds: Option<Hook>, getLinks: Option<Hook>)
      ensures definitions == null
      ensures this.context == context && this.getProperty == getProperty
      ensures this.getEmbeds == getEmbeds && this.getLinks == getLinks
    {
      definitions := null;
      this.context := context;
      this.getProperty := getProperty;
      this.getEmbeds := getEmbeds;
      this.getLinks := getLinks;
    }

    /** The definitions of one type currently registered; none before the registry exists. */
    ghost function Registered(tag: string): seq<Definition>
      reads this, definitions
    {
      if definitions == null then [] else definitions.Fetch(tag)
    }

    /** `collection?`: a class is not a collection until it declares one. */
    function IsCollection(): (r: bool)
      ensures !r
    {
      false
    }

    /** `definitions`: created empty on first call, the same registry on every later call. */
    method Definitions() returns (r: DefinitionRegistry)
      modifies this
      ensures definitions == r
      ensures old(definitions) != null ==> r == old(definitions)
      ensures old(definitions) == null ==> fresh(r) && r.entries == map[]
    {
      if definitions == null {
        definitions := new DefinitionRegistry();
      }
      r := definitions;
    }

    /** The result after the embed hook and then the link hook, each run only if the class has it. */
    function AfterHooks(resource: Value, props: Hash<Value>, opts: map<string, OptionEntry>): Hash<Value> {
      var embedded := if getEmbeds.Some? then getEmbeds.value(resource, props, opts) else props;
      if getLinks.Some? then getLinks.value(resource, embedded, opts) else embedded
    }

    /**
     * `render(resource, representer_options)`: one key per property
     * definition, in declaration order; `representer_options[:representer]`
     * set to this class unless already truthy; then the embed and link hooks.
     */
    method Render(resource: Value, options: RenderOptions) returns (result: Hash<Value>)
      modifies this, options
      ensures definitions != null && (old(definitions) != null ==> definitions == old(definitions))
      ensures definitions.entries == old(if definitions == null then map[] else definitions.entries)
      ensures var before := old(options.entries);
              options.entries ==
                if "representer" in before && EntryTruthy(before["representer"]) then before
                else before["representer" := RepresenterRef(this)]
      ensures result == AfterHooks(resource, PropertyHash(old(Registered(PropertyType)), resource, getProperty),
                                   options.entries)
    {
      var registry := Definitions();
      var props := registry.Fetch(PropertyType);
      result := [];
      for i := 0 to |props|
        invariant result == PropertyHash(props[..i], resource, getProperty)
      {
        assert PropertyPairs(props[..i + 1], resource, getProperty)[..i]
            == PropertyPairs(props[..i], resource, getProperty);
        result := Store(result, props[i].name, getProperty(props[i].name, resource));
      }
      assert props[..|props|] == props;
      if !("representer" in options.entries && EntryTruthy(options.entries["representer"])) {
        options.entries := options.entries["representer" := RepresenterRef(this)];
      }
      if getEmbeds.Some? {
        result := getEmbeds.value(resource, result, options.entries);
      }
      if getLinks.Some? {
        result := getLinks.value(resource, result, options.entries);
      }
    }

    /**
     * `render_definitions(tag) { |definition, result| ... }`: the block runs
     * on each definition of that type whose `enabled?(self)` is truthy, in
     * declaration order, threading the result hash from `{}`.
     */
    method RenderDefinitions(tag: string, step: (Definition, Hash<Value>) -> Hash<Value>)
      returns (r: Result<Hash<Value>, Error>)
      modifies this
      ensures definitions != null && (old(definitions) != null ==> definitions == old(definitions))
      ensures definitions.entries == old(if definitions == null then map[] else definitions.entries)
      ensures r == RenderFold(old(Registered(tag)), context, step)
    {
      var registry := Definitions();
      var defs := registry.Fetch(tag);
      var result: Hash<Value> := [];
      ghost var idx: seq<nat> := [];
      var i := 0;
      while i < |defs|
        invariant 0 <= i <= |defs|
        invariant EnabledIndices(defs[..i], context) == Ok(idx)
        invariant forall j :: 0 <= j < |idx| ==> idx[j] < i
        invariant result == FoldSelected(step, defs, idx)
      {
        assert defs[..i + 1][..i] == defs[..i];
        var enabled := Enabled(defs[i], context);
        if enabled.Err? {
          EnabledIndicesAbort(defs, i + 1, context);
          return Err(enabled.error);
        }
        if Truthy(enabled.value) {
          result := step(defs[i], result);
          idx := idx + [i];
        }
        i := i + 1;
      }
      assert defs[..|defs|] == defs;
      r := Ok(result);
    }
  }

  // ---------------------------------------------------------------- render_definitions

  /** Once a prefix of the definitions raises, the whole walk raises the same error. */
  lemma {:induction false} EnabledIndicesAbort(defs: seq<Definition>, n: nat, ctx: Instance)
    requires n <= |defs| && EnabledIndices(defs[..n], ctx).Err?
    ensures EnabledIndices(defs, ctx) == EnabledIndices(defs[..n], ctx)
    decreases |defs| - n
  {
    if n < |defs| {
      assert defs[..n + 1][..n] == defs[..n];
      EnabledIndicesAbort(defs, n + 1, ctx);
    } else {
      assert defs[..n] == defs;
    }
  }

  /**
   * When the walk succeeds, every definition answered `enabled?` without
   * raising, and the selected indices are strictly increasing and are
   * exactly those whose answer is truthy: disabled definitions are skipped
   * and change nothing about the others.
   */
  lemma {:induction false} EnabledIndicesExact(defs: seq<Definition>, ctx: Instance)
    requires EnabledIndices(defs, ctx).Ok?
    ensures var idx := EnabledIndices(defs, ctx).value;
            && (forall a, b :: 0 <= a < b < |idx| ==> idx[a] < idx[b])
            && (forall i :: 0 <= i < |defs| ==> Enabled(defs[i], ctx).Ok?)
            && (forall i :: 0 <= i < |defs| ==> (i in idx <==> Truthy(Enabled(defs[i], ctx).value)))
    decreases |defs|
  {
    if defs != [] {
      var n := |defs| - 1;
      EnabledIndicesExact(defs[..n], ctx);
      forall i | 0 <= i < n ensures defs[..n][i] == defs[i] { }
    }
  }

  /** When the walk raises, it raises the error of the first definition whose `enabled?` raises. */
  lemma {:induction false} EnabledIndicesFirstError(defs: seq<Definition>, ctx: Instance)
    requires EnabledIndices(defs, ctx).Err?
    ensures exists i :: 0 <= i < |defs| && Enabled(defs[i], ctx) == Err(EnabledIndices(defs, ctx).error)
                        && forall j :: 0 <= j < i ==> Enabled(defs[j], ctx).Ok?
    decreases |defs|
  {
    var n := |defs| - 1;
    if EnabledIndices(defs[..n], ctx).Err? {
      EnabledIndicesFirstError(defs[..n], ctx);
      var i :| 0 <= i < n && Enabled(defs[..n][i], ctx) == Err(EnabledIndices(defs[..n], ctx).error)
               && forall j :: 0 <= j < i ==> Enabled(defs[..n][j], ctx).Ok?;
      assert defs[..n][i] == defs[i];
      assert forall j :: 0 <= j < i ==> defs[..n][j] == defs[j];
    } else {
      EnabledIndicesExact(defs[..n], ctx);
      assert forall j :: 0 <= j < n ==> defs[..n][j] == defs[j];
    }
  }

  /** A type with no registered definitions yields nothing and renders `{}`. */
  lemma NothingRegisteredRendersEmpty(ctx: Instance, step: (Definition, Hash<Value>) -> Hash<Value>)
    ensures RenderFold([], ctx, step) == Ok([])
  {
  }

  /** The block `result[definition.name] = f(definition)`. */
  function StoreByName(f: Definition -> Value): (Definition, Hash<Value>) -> Hash<Value> {
    (d: Definition, h: Hash<Value>) => Store(h, d.name, f(d))
  }

  /** The pairs a name-keyed block assigns, for the selected definitions in order. */
  function SelectedPairs(defs: seq<Definition>, idx: seq<nat>, f: Definition -> Value): seq<(string, Value)>
    requires forall j :: 0 <= j < |idx| ==> idx[j] < |defs|
  {
    seq(|idx|, j requires 0 <= j < |idx| => (defs[idx[j]].name, f(defs[idx[j]])))
  }

  lemma {:induction false} FoldByNameIsStoreAll(defs: seq<Definition>, idx: seq<nat>, f: Definition -> Value)
    requires forall j :: 0 <= j < |idx| ==> idx[j] < |defs|
    ensures FoldSelected(StoreByName(f), defs, idx) == StoreAll(SelectedPairs(defs, idx, f))
    decreases |idx|
  {
    if idx != [] {
      var n := |idx| - 1;
      FoldByNameIsStoreAll(defs, idx[..n], f);
      assert SelectedPairs(defs, idx, f)[..n] == SelectedPairs(defs, idx[..n], f);
    }
  }

  /**
   * With a block that stores each definition under its name, the rendered
   * keys are the names of the enabled definitions in declaration order, each
   * once.
   */
  lemma RenderByNameKeys(defs: seq<Definition>, ctx: Instance, f: Definition -> Value)
    requires EnabledIndices(defs, ctx).Ok?
    ensures var r := RenderFold(defs, ctx, StoreByName(f));
            && r.Ok?
            && Keys(r.value) == FirstOccurrences(Keys(SelectedPairs(defs, EnabledIndices(defs, ctx).value, f)))
            && DistinctKeys(r.value)
  {
    var pairs := SelectedPairs(defs, EnabledIndices(defs, ctx).value, f);
    FoldByNameIsStoreAll(defs, EnabledIndices(defs, ctx).value, f);
    StoreAllKeys(pairs);
    StoreAllDistinct(pairs);
  }

  /**
   * With the same block, each name holds the value of the last enabled
   * definition of that name: later definitions overwrite earlier ones.
   */
  lemma RenderByNameValues(defs: seq<Definition>, ctx: Instance, f: Definition -> Value, j: nat)
    requires EnabledIndices(defs, ctx).Ok?
    requires j < |EnabledIndices(defs, ctx).value|
    requires var idx := EnabledIndices(defs, ctx).value;
             forall k :: j < k < |idx| ==> defs[idx[k]].name != defs[idx[j]].name
    ensures var idx := EnabledIndices(defs, ctx).value;
            var r := RenderFold(defs, ctx, StoreByName(f));
            r.Ok? && Get(r.value, defs[idx[j]].name) == Some(f(defs[idx[j]]))
  {
    var idx := EnabledIndices(defs, ctx).value;
    var pairs := SelectedPairs(defs, idx, f);
    FoldByNameIsStoreAll(defs, idx, f);
    StoreAllGet(pairs, defs[idx[j]].name);
    assert pairs[j] == (defs[idx[j]].name, f(defs[idx[j]]));
    assert forall k :: j < k < |pairs| ==> pairs[k].0 == defs[idx[k]].name;
  }

  /** A link rule rendering the constant href "href", as the link tests declare them. */
  function HrefLink(name: string, options: Options): Definition {
    Definition(Link, name, options, Some(_ => Str("href")))
  }

  /** Five links, the last four guarded by `false`, `proc { false }`, `proc { nil }` and a method returning false. */
  function FalsyGuardLinks(): seq<Definition> {
    [HrefLink("label", map[]),
     HrefLink("label_2", map["if" := Plain(Bool(false))]),
     HrefLink("label_3", map["if" := Proc(_ => Bool(false))]),
     HrefLink("label_4", map["if" := Proc(_ => Nil)]),
     HrefLink("label_5", map["if" := Plain(Sym("return_false"))])]
  }

  /** Five links, the last four guarded by `true`, `proc { true }`, `proc { 1 }` and a method returning true. */
  function TruthyGuardLinks(): seq<Definition> {
    [HrefLink("label", map[]),
     HrefLink("label_2", map["if" := Plain(Bool(true))]),
     HrefLink("label_3", map["if" := Proc(_ => Bool(true))]),
     HrefLink("label_4", map["if" := Proc(_ => Int(1))]),
     HrefLink("label_5", map["if" := Plain(Sym("return_true"))])]
  }

  /** The falsy-guard scenario: only the unguarded link is rendered. */
  lemma FalsyGuardsSkipped(ctx: Instance, f: Definition -> Value)
    requires ctx.methods == map["return_false" := Bool(false), "return_nil" := Nil]
    ensures var r := RenderFold(FalsyGuardLinks(), ctx, StoreByName(f));
            r.Ok? && Keys(r.value) == ["label"]
  {
    var defs := FalsyGuardLinks();
    assert defs[..1] == [defs[0]] && defs[..1][..0] == [];
    assert defs[..2][..1] == defs[..1];
    assert defs[..3][..2] == defs[..2];
    assert defs[..4][..3] == defs[..3];
    assert defs[..5][..4] == defs[..4] && defs[..5] == defs;
    assert Enabled(defs[0], ctx) == Ok(Bool(true));
    assert Enabled(defs[1], ctx) == Ok(Bool(false));
    assert Enabled(defs[2], ctx) == Ok(Bool(false));
    assert Enabled(defs[3], ctx) == Ok(Bool(false));
    assert Enabled(defs[4], ctx) == Ok(Bool(false));
    assert EnabledIndices(defs[..1][..0], ctx) == Ok([]);
    assert [] + [0] == [0];
    assert EnabledIndices(defs[..1], ctx) == Ok([0]);
    assert EnabledIndices(defs[..2], ctx) == Ok([0]);
    assert EnabledIndices(defs[..3], ctx) == Ok([0]);
    assert EnabledIndices(defs[..4], ctx) == Ok([0]);
    assert EnabledIndices(defs, ctx) == Ok([0]);
    assert [0][..0] == [];
  }

  lemma TruthyGuardIndices(ctx: Instance)
    requires ctx.methods == map["return_true" := Bool(true), "return_one" := Int(1)]
    ensures EnabledIndices(TruthyGuardLinks(), ctx) == Ok([0, 1, 2, 3, 4])
  {
    var defs := TruthyGuardLinks();
    assert defs[..1] == [defs[0]] && defs[..1][..0] == [];
    assert defs[..2][..1] == defs[..1];
    assert defs[..3][..2] == defs[..2];
    assert defs[..4][..3] == defs[..3];
    assert defs[..5][..4] == defs[..4] && defs[..5] == defs;
    assert Enabled(defs[0], ctx) == Ok(Bool(true));
    assert Enabled(defs[1], ctx) == Ok(Bool(true));
    assert Enabled(defs[2], ctx) == Ok(Bool(true));
    assert Enabled(defs[3], ctx) == Ok(Bool(true));
    assert Enabled(defs[4], ctx) == Ok(Bool(true));
    assert EnabledIndices(defs[..1][..0], ctx) == Ok([]);
    assert [] + [0] == [0] && [0] + [1] == [0, 1] && [0, 1] + [2] == [0, 1, 2];
    assert [0, 1, 2] + [3] == [0, 1, 2, 3] && [0, 1, 2, 3] + [4] == [0, 1, 2, 3, 4];
    assert EnabledIndices(defs[..1], ctx) == Ok([0]);
    assert EnabledIndices(defs[..2], ctx) == Ok([0, 1]);
    assert EnabledIndices(defs[..3], ctx) == Ok([0, 1, 2]);
    assert EnabledIndices(defs[..4], ctx) == Ok([0, 1, 2, 3]);
  }

  /** The truthy-guard scenario: all five links are rendered, in declaration order. */
  lemma TruthyGuardsKept(ctx: Instance, f: Definition -> Value)
    requires ctx.methods == map["return_true" := Bool(true), "return_one" := Int(1)]
    ensures var r := RenderFold(TruthyGuardLinks(), ctx, StoreByName(f));
            r.Ok? && Keys(r.value) == ["label", "label_2", "label_3", "label_4", "label_5"]
  {
    var defs := TruthyGuardLinks();
    TruthyGuardIndices(ctx);
    RenderByNameKeys(defs, ctx, f);
    var keys := Keys(SelectedPairs(defs, [0, 1, 2, 3, 4], f));
    assert keys == ["label", "label_2", "label_3", "label_4", "label_5"];
    FirstOccurrencesOfDistinct(keys);
  }

  // ---------------------------------------------------------------- render

  lemma {:induction false} NamesArePairKeys(props: seq<Definition>, resource: Value, getProperty: (string, Value) -> Value)
    ensures Keys(PropertyPairs(props, resource, getProperty)) == Names(props)
  {
  }

  /** Property rendering puts exactly one key per property name, in the order the names were first declared. */
  lemma PropertyKeys(props: seq<Definition>, resource: Value, getProperty: (string, Value) -> Value)
    ensures Keys(PropertyHash(props, resource, getProperty)) == FirstOccurrences(Names(props))
    ensures DistinctKeys(PropertyHash(props, resource, getProperty))
  {
    StoreAllKeys(PropertyPairs(props, resource, getProperty));
    StoreAllDistinct(PropertyPairs(props, resource, getProperty));
    NamesArePairKeys(props, resource, getProperty);
  }

  /** Each declared property name holds `get_property_<name>(resource)`; no other key is present. */
  lemma PropertyValues(props: seq<Definition>, resource: Value, getProperty: (string, Value) -> Value, name: string)
    ensures name in Names(props) ==> Get(PropertyHash(props, resource, getProperty), name) == Some(getProperty(name, resource))
    ensures name !in Names(props) ==> Get(PropertyHash(props, resource, getProperty), name) == None
  {
    var pairs := PropertyPairs(props, resource, getProperty);
    NamesArePairKeys(props, resource, getProperty);
    StoreAllGet(pairs, name);
    if name in Names(props) {
      var names := Names(props);
      LastIndexOf(names, name);
      var i :| 0 <= i < |names| && names[i] == name && forall j :: i < j < |names| ==> names[j] != name;
      assert pairs[i] == (name, getProperty(name, resource));
      assert forall j :: i < j < |pairs| ==> pairs[j].0 == names[j];
    }
  }

  lemma {:induction false} LastIndexOf(s: seq<string>, x: string)
    requires x in s
    ensures exists i :: 0 <= i < |s| && s[i] == x && forall j :: i < j < |s| ==> s[j] != x
    decreases |s|
  {
    if s[|s| - 1] != x {
      var n := |s| - 1;
      assert x in s[..n] by { assert s == s[..n] + [s[n]]; }
      LastIndexOf(s[..n], x);
      var i :| 0 <= i < n && s[..n][i] == x && forall j :: i < j < n ==> s[..n][j] != x;
      assert s[i] == s[..n][i];
      forall j | i < j < |s| ensures s[j] != x {
        if j < n {
          assert s[..n][j] == s[j];
        }
      }
    }
  }

  // ---------------------------------------------------------------- configuration

  /**
   * `Halogen::Configuration`. Its attributes and defaults are not part of
   * this model; only its identity is.
   */
  class Configuration {
    constructor ()
    {
    }
  }

  /** The state of the `Halogen` module object itself. */
  class HalogenModule {
    var config: Configuration?

    constructor ()
      ensures config == null
    {
      config := null;
    }

    /** `Halogen.config`: created on first call, the same instance on every later call. */
    method Config() returns (c: Configuration)
      modifies this
      ensures config == c
      ensures old(config) != null ==> c == old(config)
      ensures old(config) == null ==> fresh(c)
    {
      if config == null {
        config := new Configuration();
      }
      c := config;
    }

    /** `Halogen.configure { |config| ... }`: the instance handed to the block, which is `config`. */
    method Configure() returns (yielded: Configuration)
      modifies this
      ensures config == yielded
      ensures old(config) != null ==> yielded == old(config)
      ensures old(config) == null ==> fresh(yielded)
    {
      yielded := Config();
    }
  }

  // ---------------------------------------------------------------- scenarios

  /** The configuration a `configure` block receives is the one `config` returns. */
  method ConfigureYieldsConfig() returns (yielded: Configuration, current: Configuration)
    ensures yielded == current
  {
    var halogen := new HalogenModule();
    yielded := halogen.Configure();
    current := halogen.Config();
  }

  /** Two calls to `definitions` on a fresh class return the same registry. */
  method DefinitionsIsMemoised(context: Instance, getProperty: (string, Value) -> Value)
    returns (first: DefinitionRegistry, second: DefinitionRegistry)
    ensures first == second && first.entries == map[]
  {
    var klass := new RepresenterClass(context, getProperty, None, None);
    first := klass.Definitions();
    second := klass.Definitions();
  }

  /** A class with no definitions and no embed or link renderers renders `{}`. */
  method BareClassRendersEmpty(context: Instance, getProperty: (string, Value) -> Value, resource: Value)
    returns (result: Hash<Value>)
    ensures result == []
  {
    var klass := new RepresenterClass(context, getProperty, None, None);
    var options := new RenderOptions(map[]);
    result := klass.Render(resource, options);
  }
}
