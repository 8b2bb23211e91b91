/**
 Resolving worker spawn settings from layers, lowest priority first
 (backend/spawn_config.py).
 */
module SpawnConfig {
  import opened Options

  type Env = map<string, string>

  /** One layer; a field left out, or empty, is unset there. */
  datatype Layer = Layer(
    repos: Option<seq<string>>,
    tools: Option<seq<string>>,
    agentCount: Option<int>,
    envVars: Option<Env>,
    toolEnvVars: Option<map<string, Option<Env>>>,
    provider: Option<string>,
    model: Option<string>,
    toolDefaults: Option<map<string, Option<Env>>>)

  datatype Resolved = Resolved(
    repos: seq<string>,
    tools: seq<string>,
    agentCount: Option<int>,
    envVars: Env,
    toolEnvVars: map<string, Env>,
    provider: Option<string>,
    model: Option<string>,
    toolDefaults: map<string, Env>)

  const UNSET := Resolved([], [], None, map[], map[], None, None, map[])

  // ---------------------------------------------------------------- specification

  /** Key by key, the overlay wins, except with an empty value over a real one. */
  function MergedEnv(base: Env, over: Env): Env {
    map k | k in base.Keys + over.Keys ::
      if k !in over || (over[k] == "" && k in base && base[k] != "") then base[k] else over[k]
  }

  function OrEmpty(env: Option<Env>): Env {
    if env.None? then map[] else env.value
  }

  function EnvOf(tools: map<string, Env>, tool: string): Env {
    if tool in tools then tools[tool] else map[]
  }

  function MergedTools(base: map<string, Env>, over: map<string, Option<Env>>): map<string, Env> {
    map t | t in base.Keys + over.Keys ::
      if t in over then MergedEnv(EnvOf(base, t), OrEmpty(over[t])) else base[t]
  }

  function PickList(below: seq<string>, above: Option<seq<string>>): seq<string> {
    if above.Some? && above.value != [] then above.value else below
  }

  function Pick<T>(below: Option<T>, above: Option<T>): Option<T> {
    if above.Some? then above else below
  }

  function OverlayTools(base: map<string, Env>, over: Option<map<string, Option<Env>>>): map<string, Env> {
    if over.Some? then MergedTools(base, over.value) else base
  }

  function Overlay(r: Resolved, layer: Option<Layer>): Resolved {
    if layer.None? then r
    else
      var l := layer.value;
      Resolved(PickList(r.repos, l.repos),
               PickList(r.tools, l.tools),
               Pick(r.agentCount, l.agentCount),
               MergedEnv(r.envVars, OrEmpty(l.envVars)),
               OverlayTools(r.toolEnvVars, l.toolEnvVars),
               Pick(r.provider, l.provider),
               Pick(r.model, l.model),
               OverlayTools(r.toolDefaults, l.toolDefaults))
  }

  function MergedOnto(r: Resolved, layers: seq<Option<Layer>>): Resolved {
    if layers == [] then r
    else Overlay(MergedOnto(r, layers[..|layers| - 1]), layers[|layers| - 1])
  }

  function Merged(layers: seq<Option<Layer>>): Resolved {
    MergedOnto(UNSET, layers)
  }

  // ---------------------------------------------------------------- the code

  /** _merge_env */
  method MergeEnv(base: Env, over: Env) returns (merged: Env)
    ensures merged == MergedEnv(base, over)
  {
    merged := base;
    var left := over.Keys;
    while left != {}
      invariant left <= over.Keys
      invariant merged.Keys == base.Keys + (over.Keys - left)
      invariant forall k :: k in left && k in base ==> merged[k] == base[k]
      invariant forall k :: k in merged && k !in left ==> merged[k] == MergedEnv(base, over)[k]
      decreases left
    {
      var k :| k in left;
      left := left - {k};
      if !(over[k] == "" && k in merged && merged[k] != "") {
        merged := merged[k := over[k]];
      }
    }
  }

  /** The loops over per-tool maps. */
  method MergeTools(base: map<string, Env>, over: map<string, Option<Env>>) returns (merged: map<string, Env>)
    ensures merged == MergedTools(base, over)
  {
    merged := base;
    var left := over.Keys;
    while left != {}
      invariant left <= over.Keys
      invariant merged.Keys == base.Keys + (over.Keys - left)
      invariant forall t :: t in left && t in base ==> merged[t] == base[t]
      invariant forall t :: t in merged && t !in left ==> merged[t] == MergedTools(base, over)[t]
      decreases left
    {
      var t :| t in left;
      assert EnvOf(merged, t) == EnvOf(base, t);
      var env := MergeEnv(EnvOf(merged, t), OrEmpty(over[t]));
      left := left - {t};
      merged := merged[t := env];
    }
  }

  /** merge_layers */
  method MergeLayers(layers: seq<Option<Layer>>) returns (r: Resolved)
    ensures r == Merged(layers)
  {
    r := UNSET;
    for i := 0 to |layers|
      invariant r == Merged(layers[..i])
    {
      assert layers[..i + 1][..i] == layers[..i];
      r := MergeLayer(r, layers[i]);
    }
    assert layers[..|layers|] == layers;
  }

  /** Its loop body. */
  method MergeLayer(below: Resolved, layer: Option<Layer>) returns (r: Resolved)
    ensures r == Overlay(below, layer)
  {
    if layer.None? {
      return below;
    }
    var l := layer.value;
    var repos, tools := below.repos, below.tools;
    if l.repos.Some? && l.repos.value != [] {
      repos := l.repos.value;
    }
    if l.tools.Some? && l.tools.value != [] {
      tools := l.tools.value;
    }
    var agentCount, provider, model := below.agentCount, below.provider, below.model;
    if l.agentCount.Some? {
      agentCount := l.agentCount;
    }
    if l.provider.Some? {
      provider := l.provider;
    }
    if l.model.Some? {
      model := l.model;
    }
    var env := MergeSetEnv(below.envVars, l.envVars);
    var defaults := MergeSetTools(below.toolDefaults, l.toolDefaults);
    var toolEnv := MergeSetTools(below.toolEnvVars, l.toolEnvVars);
    r := Resolved(repos, tools, agentCount, env, toolEnv, provider, model, defaults);
  }

  /** An unset or empty map leaves the variables as they are. */
  method MergeSetEnv(base: Env, over: Option<Env>) returns (merged: Env)
    ensures merged == MergedEnv(base, OrEmpty(over))
  {
    merged := base;
    EmptyOverlay(base);
    if over.Some? && over.value != map[] {
      merged := MergeEnv(base, over.value);
    }
  }

  method MergeSetTools(base: map<string, Env>, over: Option<map<string, Option<Env>>>) returns (merged: map<string,
          Env>)
    ensures merged == OverlayTools(base, over)
  {
    merged := base;
    EmptyTools(base);
    if over.Some? && over.value != map[] {
      merged := MergeTools(base, over.value);
    }
  }

  lemma {:induction false} EmptyOverlay(env: Env)
    ensures MergedEnv(env, map[]) == env
  {
  }

  lemma {:induction false} EmptyTools(tools: map<string, Env>)
    ensures MergedTools(tools, map[]) == tools
  {
  }

  // ---------------------------------------------------------------- closed form

  /** The last value that is not empty; the empty string if there were only empty ones. */
  function LastReal(values: seq<string>): Option<string> {
    if values == [] then None
    else
      var last := values[|values| - 1];
      var before := LastReal(values[..|values| - 1]);
      if last == "" && before.Some? then before else Some(last)
  }

  function Lookup(env: Env, k: string): Option<string> {
    if k in env then Some(env[k]) else None
  }

  /** The values that the layers give a key, lowest first. */
  function Mentioned(envs: seq<Env>, k: string): seq<string> {
    if envs == [] then []
    else
      var e := envs[|envs| - 1];
      Mentioned(envs[..|envs| - 1], k) + if k in e then [e[k]] else []
  }

  function EnvLayers(layers: seq<Option<Layer>>): seq<Env> {
    if layers == [] then []
    else
      var l := layers[|layers| - 1];
      EnvLayers(layers[..|layers| - 1]) + if l.Some? then [OrEmpty(l.value.envVars)] else []
  }

  function FoldedEnvs(envs: seq<Env>): Env {
    if envs == [] then map[] else MergedEnv(FoldedEnvs(envs[..|envs| - 1]), envs[|envs| - 1])
  }

  lemma {:induction false} LastRealStep(values: seq<string>, v: string)
    ensures LastReal(values + [v]) == if v == "" && LastReal(values).Some? then LastReal(values) else Some(v)
  {
    assert (values + [v])[..|values|] == values;
  }

  lemma {:induction false} FoldedEnvIs(envs: seq<Env>, k: string)
    ensures Lookup(FoldedEnvs(envs), k) == LastReal(Mentioned(envs, k))
  {
    if envs != [] {
      var front, e := envs[..|envs| - 1], envs[|envs| - 1];
      FoldedEnvIs(front, k);
      if k in e {
        LastRealStep(Mentioned(front, k), e[k]);
      } else {
        assert Mentioned(front, k) + [] == Mentioned(front, k);
      }
    }
  }

  lemma {:induction false} EnvIsFolded(layers: seq<Option<Layer>>)
    ensures Merged(layers).envVars == FoldedEnvs(EnvLayers(layers))
  {
    if layers != [] {
      var front, l := layers[..|layers| - 1], layers[|layers| - 1];
      EnvIsFolded(front);
      if l.Some? {
        var e := OrEmpty(l.value.envVars);
        assert (EnvLayers(front) + [e])[..|EnvLayers(front)|] == EnvLayers(front);
      } else {
        assert EnvLayers(front) + [] == EnvLayers(front);
      }
    }
  }

  /** A resolved variable is the last non-empty value of any layer, or empty if only ever empty. */
  lemma {:induction false} EnvClosedForm(layers: seq<Option<Layer>>, k: string)
    ensures Lookup(Merged(layers).envVars, k) == LastReal(Mentioned(EnvLayers(layers), k))
  {
    EnvIsFolded(layers);
    FoldedEnvIs(EnvLayers(layers), k);
  }

  /** LastReal in plain words. */
  lemma {:induction false} LastRealMeans(values: seq<string>)
    ensures LastReal(values).None? <==> values == []
    ensures LastReal(values) == Some("") <==> values != [] && forall i :: 0 <= i < |values| ==> values[i] == ""
    ensures LastReal(values).Some? && LastReal(values).value != "" ==>
              exists i :: 0 <= i < |values| && values[i] == LastReal(values).value
                          && forall j :: i < j < |values| ==> values[j] == ""
  {
    if values != [] {
      var front, last := values[..|values| - 1], values[|values| - 1];
      LastRealMeans(front);
      if last == "" && LastReal(front).Some? && LastReal(front).value != "" {
        var i :| 0 <= i < |front| && front[i] == LastReal(front).value
                    && forall j :: i < j < |front| ==> front[j] == "";
        assert values[i] == front[i];
      }
    }
  }

  // -- per-tool maps

  /** What the layers give one tool, lowest first; a null map counts as an empty one. */
  function ToolLayers(layers: seq<Option<map<string, Option<Env>>>>, tool: string): seq<Env> {
    if layers == [] then []
    else
      var l := layers[|layers| - 1];
      ToolLayers(layers[..|layers| - 1], tool) + if l.Some? && tool in l.value then [OrEmpty(l.value[tool])] else []
  }

  function FoldedTools(layers: seq<Option<map<string, Option<Env>>>>): map<string, Env> {
    if layers == [] then map[] else OverlayTools(FoldedTools(layers[..|layers| - 1]), layers[|layers| - 1])
  }

  lemma {:induction false} FoldedToolsAre(layers: seq<Option<map<string, Option<Env>>>>, tool: string)
    ensures tool in FoldedTools(layers) <==> ToolLayers(layers, tool) != []
    ensures EnvOf(FoldedTools(layers), tool) == FoldedEnvs(ToolLayers(layers, tool))
  {
    if layers != [] {
      var front, l := layers[..|layers| - 1], layers[|layers| - 1];
      FoldedToolsAre(front, tool);
      var before := ToolLayers(front, tool);
      if l.Some? && tool in l.value {
        assert (before + [OrEmpty(l.value[tool])])[..|before|] == before;
      } else {
        assert before + [] == before;
      }
    }
  }

  function ToolEnvOf(layer: Option<Layer>): Option<map<string, Option<Env>>> {
    if layer.None? then None else layer.value.toolEnvVars
  }

  function DefaultsOf(layer: Option<Layer>): Option<map<string, Option<Env>>> {
    if layer.None? then None else layer.value.toolDefaults
  }

  function ToolEnvLayers(layers: seq<Option<Layer>>): seq<Option<map<string, Option<Env>>>> {
    seq(|layers|, i requires 0 <= i < |layers| => ToolEnvOf(layers[i]))
  }

  function DefaultLayers(layers: seq<Option<Layer>>): seq<Option<map<string, Option<Env>>>> {
    seq(|layers|, i requires 0 <= i < |layers| => DefaultsOf(layers[i]))
  }

  lemma {:induction false} ToolsAreFolded(layers: seq<Option<Layer>>)
    ensures Merged(layers).toolEnvVars == FoldedTools(ToolEnvLayers(layers))
    ensures Merged(layers).toolDefaults == FoldedTools(DefaultLayers(layers))
  {
    if layers != [] {
      var front := layers[..|layers| - 1];
      ToolsAreFolded(front);
      assert ToolEnvLayers(layers)[..|layers| - 1] == ToolEnvLayers(front);
      assert DefaultLayers(layers)[..|layers| - 1] == DefaultLayers(front);
    }
  }

  /** A tool is resolved if some layer mentions it, and its keys follow the same rule as plain variables. */
  lemma {:induction false} ToolClosedForm(layers: seq<Option<Layer>>, tool: string, k: string)
    ensures tool in Merged(layers).toolEnvVars <==> ToolLayers(ToolEnvLayers(layers), tool) != []
    ensures Lookup(EnvOf(Merged(layers).toolEnvVars, tool), k)
            == LastReal(Mentioned(ToolLayers(ToolEnvLayers(layers), tool), k))
    ensures tool in Merged(layers).toolDefaults <==> ToolLayers(DefaultLayers(layers), tool) != []
    ensures Lookup(EnvOf(Merged(layers).toolDefaults, tool), k)
            == LastReal(Mentioned(ToolLayers(DefaultLayers(layers), tool), k))
  {
    ToolsAreFolded(layers);
    FoldedToolsAre(ToolEnvLayers(layers), tool);
    FoldedEnvIs(ToolLayers(ToolEnvLayers(layers), tool), k);
    FoldedToolsAre(DefaultLayers(layers), tool);
    FoldedEnvIs(ToolLayers(DefaultLayers(layers), tool), k);
  }

  // -- lists and scalars

  function LastSet<T>(offers: seq<Option<T>>): Option<T> {
    if offers == [] then None
    else if offers[|offers| - 1].Some? then offers[|offers| - 1]
    else LastSet(offers[..|offers| - 1])
  }

  /** LastSet in plain words. */
  lemma {:induction false} LastSetMeans<T>(offers: seq<Option<T>>)
    ensures LastSet(offers).None? <==> forall i :: 0 <= i < |offers| ==> offers[i].None?
    ensures LastSet(offers).Some? ==>
              exists i :: 0 <= i < |offers| && offers[i] == LastSet(offers)
                        && forall j :: i < j < |offers| ==> offers[j].None?
  {
    if offers != [] && offers[|offers| - 1].None? {
      var front := offers[..|offers| - 1];
      LastSetMeans(front);
      if LastSet(front).Some? {
        var i :| 0 <= i < |front| && front[i] == LastSet(front) && forall j :: i < j < |front| ==> front[j].None?;
        assert offers[i] == front[i];
      }
    }
  }

  function OfferedList(list: Option<seq<string>>): Option<seq<string>> {
    if list.Some? && list.value != [] then list else None
  }

  function Repos(layers: seq<Option<Layer>>): seq<Option<seq<string>>> {
    seq(|layers|, i requires 0 <= i < |layers| =>
      if layers[i].Some? then OfferedList(layers[i].value.repos) else None)
  }

  function ToolLists(layers: seq<Option<Layer>>): seq<Option<seq<string>>> {
    seq(|layers|, i requires 0 <= i < |layers| =>
      if layers[i].Some? then OfferedList(layers[i].value.tools) else None)
  }

  function Counts(layers: seq<Option<Layer>>): seq<Option<int>> {
    seq(|layers|, i requires 0 <= i < |layers| => if layers[i].Some? then layers[i].value.agentCount else None)
  }

  function Providers(layers: seq<Option<Layer>>): seq<Option<string>> {
    seq(|layers|, i requires 0 <= i < |layers| => if layers[i].Some? then layers[i].value.provider else None)
  }

  function Models(layers: seq<Option<Layer>>): seq<Option<string>> {
    seq(|layers|, i requires 0 <= i < |layers| => if layers[i].Some? then layers[i].value.model else None)
  }

  /** The last layer to provide a non-empty list wins, whole. */
  lemma {:induction false} ListClosedForm(layers: seq<Option<Layer>>)
    ensures Merged(layers).repos == PickList([], LastSet(Repos(layers)))
    ensures Merged(layers).tools == PickList([], LastSet(ToolLists(layers)))
  {
    if layers != [] {
      var front := layers[..|layers| - 1];
      ListClosedForm(front);
      assert Repos(layers)[..|layers| - 1] == Repos(front);
      assert ToolLists(layers)[..|layers| - 1] == ToolLists(front);
    }
  }

  /** The last layer to set a scalar wins. */
  lemma {:induction false} ScalarClosedForm(layers: seq<Option<Layer>>)
    ensures Merged(layers).agentCount == LastSet(Counts(layers))
    ensures Merged(layers).provider == LastSet(Providers(layers))
    ensures Merged(layers).model == LastSet(Models(layers))
  {
    if layers != [] {
      var front := layers[..|layers| - 1];
      ScalarClosedForm(front);
      assert Counts(layers)[..|layers| - 1] == Counts(front);
      assert Providers(layers)[..|layers| - 1] == Providers(front);
      assert Models(layers)[..|layers| - 1] == Models(front);
    }
  }

  // ---------------------------------------------------------------- regrouping

  function AllSome(tools: map<string, Env>): map<string, Option<Env>> {
    map t | t in tools :: Some(tools[t])
  }

  /** A resolved result, used as a layer in its turn. */
  function AsLayer(r: Resolved): Option<Layer> {
    Some(Layer(Some(r.repos), Some(r.tools), r.agentCount, Some(r.envVars), Some(AllSome(r.toolEnvVars)),
               r.provider, r.model, Some(AllSome(r.toolDefaults))))
  }

  lemma {:induction false} EnvAssociates(x: Env, y: Env, z: Env)
    ensures MergedEnv(MergedEnv(x, y), z) == MergedEnv(x, MergedEnv(y, z))
  {
  }

  lemma {:induction false} ToolAssociates(x: map<string, Env>, y: map<string, Env>, z: map<string, Option<Env>>,
          t: string)
    requires t in x || t in y || t in z
    ensures MergedTools(MergedTools(x, AllSome(y)), z)[t] == MergedTools(x, AllSome(MergedTools(y, z)))[t]
  {
    if t in z {
      EnvAssociates(EnvOf(x, t), EnvOf(y, t), OrEmpty(z[t]));
      if t !in y {
        EmptyOverlay(EnvOf(x, t));
      }
    }
  }

  lemma {:induction false} ToolsAssociate(x: map<string, Env>, y: map<string, Env>, z: map<string, Option<Env>>)
    ensures MergedTools(MergedTools(x, AllSome(y)), z) == MergedTools(x, AllSome(MergedTools(y, z)))
  {
    var a, b := MergedTools(MergedTools(x, AllSome(y)), z), MergedTools(x, AllSome(MergedTools(y, z)));
    assert a.Keys == b.Keys;
    forall t | t in a ensures a[t] == b[t] {
      ToolAssociates(x, y, z, t);
    }
  }

  lemma {:induction false} ToolOverlayAssociates(x: map<string, Env>, y: map<string, Env>, over: Option<map<string,
          Option<Env>>>)
    ensures OverlayTools(OverlayTools(x, Some(AllSome(y))), over)
            == OverlayTools(x, Some(AllSome(OverlayTools(y, over))))
  {
    if over.Some? {
      ToolsAssociate(x, y, over.value);
    }
  }

  lemma {:induction false} EnvOverlayAssociates(r: Resolved, s: Resolved, l: Layer)
    ensures Overlay(Overlay(r, AsLayer(s)), Some(l)).envVars == Overlay(r, AsLayer(Overlay(s, Some(l)))).envVars
  {
    EnvAssociates(r.envVars, s.envVars, OrEmpty(l.envVars));
  }

  lemma {:induction false} PlainOverlayAssociates(r: Resolved, s: Resolved, l: Layer)
    ensures var a, b := Overlay(Overlay(r, AsLayer(s)), Some(l)), Overlay(r, AsLayer(Overlay(s, Some(l))));
            a.repos == b.repos && a.tools == b.tools && a.agentCount == b.agentCount
            && a.provider == b.provider && a.model == b.model
  {
  }

  lemma {:induction false} ToolMapsAssociate(r: Resolved, s: Resolved, l: Layer)
    ensures var a, b := Overlay(Overlay(r, AsLayer(s)), Some(l)), Overlay(r, AsLayer(Overlay(s, Some(l))));
            a.toolEnvVars == b.toolEnvVars && a.toolDefaults == b.toolDefaults
  {
    ToolOverlayAssociates(r.toolEnvVars, s.toolEnvVars, l.toolEnvVars);
    ToolOverlayAssociates(r.toolDefaults, s.toolDefaults, l.toolDefaults);
  }

  lemma {:induction false} SameFields(a: Resolved, b: Resolved)
    requires a.repos == b.repos && a.tools == b.tools && a.agentCount == b.agentCount
    requires a.provider == b.provider && a.model == b.model && a.envVars == b.envVars
    requires a.toolEnvVars == b.toolEnvVars && a.toolDefaults == b.toolDefaults
    ensures a == b
  {
  }

  lemma {:induction false} OverlayAssociates(r: Resolved, s: Resolved, layer: Option<Layer>)
    ensures Overlay(Overlay(r, AsLayer(s)), layer) == Overlay(r, AsLayer(Overlay(s, layer)))
  {
    if layer.Some? {
      PlainOverlayAssociates(r, s, layer.value);
      EnvOverlayAssociates(r, s, layer.value);
      ToolMapsAssociate(r, s, layer.value);
      SameFields(Overlay(Overlay(r, AsLayer(s)), layer), Overlay(r, AsLayer(Overlay(s, layer))));
    }
  }

  lemma {:induction false} OverlayUnset(r: Resolved)
    ensures Overlay(r, AsLayer(UNSET)) == r
  {
    EmptyOverlay(r.envVars);
    assert AllSome(map[]) == map[];
    EmptyTools(r.toolEnvVars);
    EmptyTools(r.toolDefaults);
  }

  lemma {:induction false} MergeOntoIsOverlay(r: Resolved, layers: seq<Option<Layer>>)
    ensures MergedOnto(r, layers) == Overlay(r, AsLayer(Merged(layers)))
  {
    if layers == [] {
      OverlayUnset(r);
    } else {
      var front, last := layers[..|layers| - 1], layers[|layers| - 1];
      MergeOntoIsOverlay(r, front);
      OverlayAssociates(r, Merged(front), last);
    }
  }

  lemma {:induction false} MergeOfConcat(r: Resolved, a: seq<Option<Layer>>, b: seq<Option<Layer>>)
    ensures MergedOnto(r, a + b) == MergedOnto(MergedOnto(r, a), b)
  {
    if b == [] {
      assert a + b == a;
    } else {
      assert (a + b)[..|a + b| - 1] == a + b[..|b| - 1];
      MergeOfConcat(r, a, b[..|b| - 1]);
    }
  }

  function Flat(groups: seq<seq<Option<Layer>>>): seq<Option<Layer>> {
    if groups == [] then [] else Flat(groups[..|groups| - 1]) + groups[|groups| - 1]
  }

  /** Each group of consecutive layers resolved first, and the results merged as layers. */
  function MergedGroups(groups: seq<seq<Option<Layer>>>): Resolved {
    if groups == [] then UNSET
    else Overlay(MergedGroups(groups[..|groups| - 1]), AsLayer(Merged(groups[|groups| - 1])))
  }

  /** Resolving in groups, however they are cut, resolves the same settings. */
  lemma {:induction false} GroupingIsIrrelevant(groups: seq<seq<Option<Layer>>>)
    ensures MergedGroups(groups) == Merged(Flat(groups))
  {
    if groups != [] {
      var front, last := groups[..|groups| - 1], groups[|groups| - 1];
      GroupingIsIrrelevant(front);
      MergeOfConcat(UNSET, Flat(front), last);
      MergeOntoIsOverlay(Merged(Flat(front)), last);
    }
  }
}
