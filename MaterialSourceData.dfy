/**
 * Creation of a material asset from `.material` source data: the parent chain
 * is walked with cycle detection and a same-material-type check, and the
 * property layers are applied to the asset creator from the farthest ancestor
 * down to the material itself, classifying each value as invalid, an image
 * reference or a plain value.
 *
 * File loading, path resolution, asset ids, image lookup and the creator's
 * final `End` verdict are collaborators, given by an `Environment`.
 */
module MaterialSourceData {
  import opened Wrappers
  import opened MaterialValue

  type AssetId = nat

  /** `MaterialPropertyId`: a property group and a property name within it. */
  datatype PropertyId = PropertyId(group: string, name: string)

  /** `MaterialSourceData`: the material type, the parent material (empty for none), and the property groups in map order. */
  datatype MaterialSource = MaterialSource(
    materialType: string,
    parentMaterial: string,
    properties: seq<(string, seq<(string, Value)>)>)

  /** What the creator is told by `ReportWarning`. */
  datatype Warning = InvalidSourceValue(id: PropertyId) | MissingImage(id: PropertyId, path: string)

  /** The creator's property values and the warnings it was given. */
  datatype CreatorState = CreatorState(values: map<PropertyId, Value>, warnings: seq<Warning>)

  const EmptyState := CreatorState(map[], [])

  datatype ProcessingMode = DeferredBake | PreBake

  /** A built material asset as `CreateMaterialAsset` reads it from its parent. */
  datatype MaterialAssetInfo = MaterialAssetInfo(
    typeId: AssetId,
    rawPropertyValues: seq<(PropertyId, Value)>,
    layoutNames: seq<PropertyId>,
    propertyValues: seq<Value>)

  /**
   * The collaborators: `ResolvePathReference`; `MakeAssetId(path, 0)` (the
   * two-path form is taken as the resolved path); whether a material type
   * source file loads and builds into a type asset; the `.material` files that
   * load; the built material assets by path; whether a type asset loads; the
   * image asset reference lookup; and `MaterialAssetCreator::End`'s verdict.
   */
  datatype Environment = Environment(
    resolve: (string, string) -> string,
    assetIdOf: string -> Option<AssetId>,
    materialTypeBuilds: string -> bool,
    sourceFiles: map<string, MaterialSource>,
    materialAssets: map<string, MaterialAssetInfo>,
    typeAssetLoads: AssetId -> bool,
    imageLookup: (string, string) -> Option<string>,
    end: CreatorState -> bool)

  // ---------------------------------------------------------------------------
  // Value classification and one layer of properties
  // ---------------------------------------------------------------------------

  /** `StringFunc::Contains(s, ".")`. */
  predicate HasDot(s: string)
  {
    exists i :: 0 <= i < |s| && s[i] == '.'
  }

  /** How `ApplyPropertiesToAssetCreator` treats a source value. */
  datatype Classification = InvalidValue | ImageReference(path: string) | PlainValue(v: Value)

  /**
   * An invalid value is only warned about; a string containing '.' is an image
   * reference; anything else, including a string without '.', is set as it is.
   */
  function Classify(v: Value): (c: Classification)
    ensures c.InvalidValue? <==> !IsValid(v)
    ensures c.ImageReference? <==> v.Str? && HasDot(v.s)
    ensures c.ImageReference? ==> c.path == v.s
    ensures c.PlainValue? ==> c.v == v
  {
    if !IsValid(v) then InvalidValue
    else if v.Str? && HasDot(v.s) then ImageReference(v.s)
    else PlainValue(v)
  }

  /** The value set for an image reference: the asset found, or the empty reference, to preload. */
  function ImageValue(sourcePath: string, path: string, lookup: (string, string) -> Option<string>): Value
  {
    ImageAsset(ImageAssetRef(lookup(sourcePath, path), true))
  }

  /** One property of a layer applied to the creator. */
  function ApplyEntry(state: CreatorState, id: PropertyId, v: Value, sourcePath: string, lookup: (string, string) -> Option<string>): CreatorState
  {
    match Classify(v)
    case InvalidValue => state.(warnings := state.warnings + [InvalidSourceValue(id)])
    case ImageReference(path) =>
      var w := if lookup(sourcePath, path).None? then state.warnings + [MissingImage(id, path)] else state.warnings;
      CreatorState(state.values[id := ImageValue(sourcePath, path, lookup)], w)
    case PlainValue(plain) => state.(values := state.values[id := plain])
  }

  /** The properties of one group, with their ids. */
  function GroupEntries(group: string, props: seq<(string, Value)>): seq<(PropertyId, Value)>
  {
    seq(|props|, i requires 0 <= i < |props| => (PropertyId(group, props[i].0), props[i].1))
  }

  /** Every property of the groups, in iteration order. */
  function Entries(groups: seq<(string, seq<(string, Value)>)>): seq<(PropertyId, Value)>
    decreases |groups|
  {
    if groups == [] then []
    else
      var last := groups[|groups| - 1];
      Entries(groups[..|groups| - 1]) + GroupEntries(last.0, last.1)
  }

  /** The entries applied in order. */
  function ApplyEntries(state: CreatorState, entries: seq<(PropertyId, Value)>, sourcePath: string,
                        lookup: (string, string) -> Option<string>): CreatorState
    decreases |entries|
  {
    if entries == [] then state
    else
      var last := entries[|entries| - 1];
      ApplyEntry(ApplyEntries(state, entries[..|entries| - 1], sourcePath, lookup), last.0, last.1, sourcePath, lookup)
  }

  /** `ApplyPropertiesToAssetCreator` of one source on the creator's state. */
  function ApplyLayer(state: CreatorState, source: MaterialSource, sourcePath: string, lookup: (string, string) -> Option<string>): CreatorState
  {
    ApplyEntries(state, Entries(source.properties), sourcePath, lookup)
  }

  /** `MaterialAssetCreator`, as far as the source data drives it. */
  class MaterialAssetCreator {
    var values: map<PropertyId, Value>
    var warnings: seq<Warning>

    constructor ()
      ensures values == map[] && warnings == []
    {
      values := map[];
      warnings := [];
    }

    function State(): CreatorState
      reads this
    {
      CreatorState(values, warnings)
    }

    method SetPropertyValue(id: PropertyId, v: Value)
      modifies this
      ensures values == old(values)[id := v] && warnings == old(warnings)
    {
      values := values[id := v];
    }

    method ReportWarning(w: Warning)
      modifies this
      ensures values == old(values) && warnings == old(warnings) + [w]
    {
      warnings := warnings + [w];
    }
  }

  /** The inner loop of `ApplyPropertiesToAssetCreator`: the properties of one group. */
  method ApplyGroup(group: string, props: seq<(string, Value)>, creator: MaterialAssetCreator, sourcePath: string,
                    lookup: (string, string) -> Option<string>)
    modifies creator
    ensures creator.State() == ApplyEntries(old(creator.State()), GroupEntries(group, props), sourcePath, lookup)
  {
    ghost var entries := GroupEntries(group, props);
    ghost var start := creator.State();
    var j := 0;
    while j < |props|
      invariant 0 <= j <= |props|
      invariant creator.State() == ApplyEntries(start, entries[..j], sourcePath, lookup)
    {
      assert entries[..j + 1][..j] == entries[..j];
      var id := PropertyId(group, props[j].0);
      var v := props[j].1;
      if !IsValid(v) {
        creator.ReportWarning(InvalidSourceValue(id));
      } else if v.Str? && HasDot(v.s) {
        var found := lookup(sourcePath, v.s);
        if found.None? {
          creator.ReportWarning(MissingImage(id, v.s));
        }
        creator.SetPropertyValue(id, ImageAsset(ImageAssetRef(found, true)));
      } else {
        creator.SetPropertyValue(id, v);
      }
      j := j + 1;
    }
    assert entries[..j] == entries;
  }

  /** `MaterialSourceData::ApplyPropertiesToAssetCreator`. */
  method ApplyPropertiesToAssetCreator(source: MaterialSource, creator: MaterialAssetCreator, sourcePath: string,
                                       lookup: (string, string) -> Option<string>)
    modifies creator
    ensures creator.State() == ApplyLayer(old(creator.State()), source, sourcePath, lookup)
  {
    var groups := source.properties;
    ghost var start := creator.State();
    var i := 0;
    while i < |groups|
      invariant 0 <= i <= |groups|
      invariant creator.State() == ApplyEntries(start, Entries(groups[..i]), sourcePath, lookup)
    {
      assert groups[..i + 1][..i] == groups[..i];
      ApplyEntriesAppend(start, Entries(groups[..i]), GroupEntries(groups[i].0, groups[i].1), sourcePath, lookup);
      ApplyGroup(groups[i].0, groups[i].1, creator, sourcePath, lookup);
      i := i + 1;
    }
    assert groups[..i] == groups;
  }

  // ---------------------------------------------------------------------------
  // Layers
  // ---------------------------------------------------------------------------

  /** The parent stack applied from its back (the farthest ancestor) to its front (the direct parent). */
  function ApplyStack(state: CreatorState, stack: seq<MaterialSource>, sourcePath: string,
                      lookup: (string, string) -> Option<string>): CreatorState
    decreases |stack|
  {
    if stack == [] then state
    else ApplyStack(ApplyLayer(state, stack[|stack| - 1], sourcePath, lookup), stack[..|stack| - 1], sourcePath, lookup)
  }

  /** The value a valid entry sets. */
  function SetValueOf(v: Value, sourcePath: string, lookup: (string, string) -> Option<string>): Value
  {
    match Classify(v)
    case ImageReference(path) => ImageValue(sourcePath, path, lookup)
    case _ => v
  }

  /** The value the last valid entry for `id` sets, if any. */
  function LastSet(entries: seq<(PropertyId, Value)>, id: PropertyId, sourcePath: string,
                   lookup: (string, string) -> Option<string>): Option<Value>
    decreases |entries|
  {
    if entries == [] then None
    else
      var last := entries[|entries| - 1];
      if last.0 == id && IsValid(last.1) then Some(SetValueOf(last.1, sourcePath, lookup))
      else LastSet(entries[..|entries| - 1], id, sourcePath, lookup)
  }

  /** The value a source's own properties set for `id`, if any. */
  function LayerSet(source: MaterialSource, id: PropertyId, sourcePath: string, lookup: (string, string) -> Option<string>): Option<Value>
  {
    LastSet(Entries(source.properties), id, sourcePath, lookup)
  }

  /** The value the nearest layer of the stack (its front first) sets for `id`, if any. */
  function FirstSet(stack: seq<MaterialSource>, id: PropertyId, sourcePath: string,
                    lookup: (string, string) -> Option<string>): Option<Value>
    decreases |stack|
  {
    if stack == [] then None
    else
      var nearer := FirstSet(stack[..|stack| - 1], id, sourcePath, lookup);
      if nearer.Some? then nearer else LayerSet(stack[|stack| - 1], id, sourcePath, lookup)
  }

  // ---------------------------------------------------------------------------
  // The parent chain
  // ---------------------------------------------------------------------------

  /** The parents found by the walk (nearest first), their resolved paths, and the dependency set. */
  datatype Walk = Walk(stack: seq<MaterialSource>, paths: seq<string>, dependencies: set<string>)

  lemma SetShrinks(keys: set<string>, deps: set<string>, p: string)
    requires p in keys && p !in deps
    ensures |keys - (deps + {p})| < |keys - deps|
  {
    assert keys - (deps + {p}) == (keys - deps) - {p};
  }

  /**
   * The parent walk of `CreateMaterialAssetFromSourceData`, from the parent
   * reference `relPath` resolved to `absPath`: it fails on a path already in the
   * dependency set (a cycle), on a file that does not load, and on a parent
   * whose material type is not `typeId`.
   */
  function ParentChain(env: Environment, typeId: AssetId, deps: set<string>, relPath: string, absPath: string): Option<Walk>
    decreases |env.sourceFiles.Keys - deps|
  {
    if relPath == "" then Some(Walk([], [], deps))
    else if absPath in deps || absPath !in env.sourceFiles then None
    else
      var parent := env.sourceFiles[absPath];
      if env.assetIdOf(env.resolve(absPath, parent.materialType)) != Some(typeId) then None
      else
        SetShrinks(env.sourceFiles.Keys, deps, absPath);
        var rest := ParentChain(env, typeId, deps + {absPath}, parent.parentMaterial, env.resolve(absPath, parent.parentMaterial));
        if rest.None? then None
        else Some(Walk([parent] + rest.value.stack, [absPath] + rest.value.paths, rest.value.dependencies))
  }

  /** A walk continued from parents already found. */
  function Prepend(stack: seq<MaterialSource>, paths: seq<string>, w: Option<Walk>): Option<Walk>
  {
    if w.None? then None else Some(Walk(stack + w.value.stack, paths + w.value.paths, w.value.dependencies))
  }

  /** A created material: the creator's final state, and the source files it depended on. */
  datatype Created = Created(asset: CreatorState, dependencies: set<string>)

  /** `CreateMaterialAssetFromSourceData`. */
  function FromSourceData(self: MaterialSource, env: Environment, sourcePath: string): Option<Created>
  {
    if self.materialType == "" then None
    else
      var typePath := env.resolve(sourcePath, self.materialType);
      match env.assetIdOf(typePath)
      case None => None
      case Some(typeId) =>
        if !env.materialTypeBuilds(typePath) then None
        else
          match ParentChain(env, typeId, {sourcePath, typePath}, self.parentMaterial, env.resolve(sourcePath, self.parentMaterial))
          case None => None
          case Some(walk) =>
            var state := ApplyLayer(ApplyStack(EmptyState, walk.stack, sourcePath, env.imageLookup), self, sourcePath, env.imageLookup);
            if env.end(state) then Some(Created(state, walk.dependencies)) else None
  }

  /** The caller's optional set of source dependencies. */
  class DependencySet {
    var paths: set<string>

    constructor ()
      ensures paths == {}
    {
      paths := {};
    }
  }

  /** One step of the walk: the parent at `absPath` moves from the remaining chain to the walk found so far. */
  lemma WalkStep(env: Environment, typeId: AssetId, deps: set<string>, relPath: string, absPath: string,
                 stack: seq<MaterialSource>, paths: seq<string>)
    requires relPath != "" && absPath !in deps && absPath in env.sourceFiles
    requires env.assetIdOf(env.resolve(absPath, env.sourceFiles[absPath].materialType)) == Some(typeId)
    ensures var parent := env.sourceFiles[absPath];
            Prepend(stack, paths, ParentChain(env, typeId, deps, relPath, absPath))
            == Prepend(stack + [parent], paths + [absPath],
                       ParentChain(env, typeId, deps + {absPath}, parent.parentMaterial, env.resolve(absPath, parent.parentMaterial)))
  {
    var parent := env.sourceFiles[absPath];
    var rest := ParentChain(env, typeId, deps + {absPath}, parent.parentMaterial, env.resolve(absPath, parent.parentMaterial));
    if rest.Some? {
      assert stack + ([parent] + rest.value.stack) == (stack + [parent]) + rest.value.stack;
      assert paths + ([absPath] + rest.value.paths) == (paths + [absPath]) + rest.value.paths;
    }
  }

  /**
   * The walk loop of `CreateMaterialAssetFromSourceData`: the parent stack and
   * the dependencies, or `None` on a failure.
   */
  method WalkParents(env: Environment, typeId: AssetId, sourcePath: string, typePath: string, parentMaterial: string)
    returns (r: Option<(seq<MaterialSource>, set<string>)>)
    ensures var w := ParentChain(env, typeId, {sourcePath, typePath}, parentMaterial, env.resolve(sourcePath, parentMaterial));
            r == if w.None? then None else Some((w.value.stack, w.value.dependencies))
  {
    var dependencies := {sourcePath, typePath};
    var stack: seq<MaterialSource> := [];
    ghost var paths: seq<string> := [];
    var relPath := parentMaterial;
    var absPath := env.resolve(sourcePath, relPath);
    ghost var whole := ParentChain(env, typeId, dependencies, relPath, absPath);
    if whole.Some? {
      assert [] + whole.value.stack == whole.value.stack && [] + whole.value.paths == whole.value.paths;
    }
    while relPath != ""
      invariant whole == Prepend(stack, paths, ParentChain(env, typeId, dependencies, relPath, absPath))
      decreases |env.sourceFiles.Keys - dependencies|
    {
      if absPath in dependencies {
        return None;
      }
      if absPath !in env.sourceFiles {
        return None;
      }
      var parent := env.sourceFiles[absPath];
      if env.assetIdOf(env.resolve(absPath, parent.materialType)) != Some(typeId) {
        return None;
      }
      SetShrinks(env.sourceFiles.Keys, dependencies, absPath);
      WalkStep(env, typeId, dependencies, relPath, absPath, stack, paths);
      paths := paths + [absPath];
      stack := stack + [parent];
      dependencies := dependencies + {absPath};
      relPath := parent.parentMaterial;
      absPath := env.resolve(absPath, relPath);
    }
    assert stack + [] == stack;
    return Some((stack, dependencies));
  }

  /**
   * `MaterialSourceData::CreateMaterialAssetFromSourceData`: the created
   * asset's state, or `None` on failure; the caller's dependency set, when
   * given, grows by the dependencies only on success.
   */
  method CreateMaterialAssetFromSourceData(self: MaterialSource, env: Environment, sourcePath: string, sourceDependencies: DependencySet?)
    returns (r: Option<CreatorState>)
    modifies sourceDependencies
    ensures var c := FromSourceData(self, env, sourcePath);
            r == if c.None? then None else Some(c.value.asset)
    ensures var c := FromSourceData(self, env, sourcePath);
            sourceDependencies != null ==>
              sourceDependencies.paths == old(sourceDependencies.paths) + (if c.None? then {} else c.value.dependencies)
  {
    if self.materialType == "" {
      return None;
    }
    var typePath := env.resolve(sourcePath, self.materialType);
    var typeId := env.assetIdOf(typePath);
    if typeId.None? {
      return None;
    }
    if !env.materialTypeBuilds(typePath) {
      return None;
    }
    var walk := WalkParents(env, typeId.value, sourcePath, typePath, self.parentMaterial);
    if walk.None? {
      return None;
    }
    var (stack, dependencies) := walk.value;
    ghost var stack0 := stack;
    var creator := new MaterialAssetCreator();
    while |stack| > 0
      invariant ApplyStack(creator.State(), stack, sourcePath, env.imageLookup) == ApplyStack(EmptyState, stack0, sourcePath, env.imageLookup)
      invariant sourceDependencies != null ==> sourceDependencies.paths == old(sourceDependencies.paths)
    {
      ApplyPropertiesToAssetCreator(stack[|stack| - 1], creator, sourcePath, env.imageLookup);
      stack := stack[..|stack| - 1];
    }
    ApplyPropertiesToAssetCreator(self, creator, sourcePath, env.imageLookup);
    if !env.end(creator.State()) {
      return None;
    }
    if sourceDependencies != null {
      sourceDependencies.paths := sourceDependencies.paths + dependencies;
    }
    return Some(creator.State());
  }

  // ---------------------------------------------------------------------------
  // CreateMaterialAsset
  // ---------------------------------------------------------------------------

  /** Each pair set on the creator's values, in order. */
  function SetAll(state: CreatorState, pairs: seq<(PropertyId, Value)>): CreatorState
    decreases |pairs|
  {
    if pairs == [] then state
    else
      var last := pairs[|pairs| - 1];
      var previous := SetAll(state, pairs[..|pairs| - 1]);
      previous.(values := previous.values[last.0 := last.1])
  }

  /** The layout's property names paired with the finalized values. */
  function Zip(names: seq<PropertyId>, values: seq<Value>): seq<(PropertyId, Value)>
    requires |names| == |values|
  {
    seq(|names|, i requires 0 <= i < |names| => (names[i], values[i]))
  }

  /**
   * The values a material inherits in `CreateMaterialAsset`: none without a
   * parent; otherwise the parent asset must load and share the material type,
   * and gives its raw values (deferred bake) or its finalized values by layout
   * name (pre-bake, where the counts must agree).
   */
  function Inherited(self: MaterialSource, env: Environment, sourcePath: string, mode: ProcessingMode, typeId: AssetId): Option<CreatorState>
  {
    if self.parentMaterial == "" then Some(EmptyState)
    else
      var parentPath := env.resolve(sourcePath, self.parentMaterial);
      if parentPath !in env.materialAssets then None
      else
        var parent := env.materialAssets[parentPath];
        if parent.typeId != typeId then None
        else if mode == DeferredBake then Some(SetAll(EmptyState, parent.rawPropertyValues))
        else if |parent.propertyValues| != |parent.layoutNames| then None
        else Some(SetAll(EmptyState, Zip(parent.layoutNames, parent.propertyValues)))
  }

  /** `MaterialSourceData::CreateMaterialAsset`. */
  function CreatedAsset(self: MaterialSource, env: Environment, sourcePath: string, mode: ProcessingMode): Option<CreatorState>
  {
    if self.materialType == "" then None
    else
      match env.assetIdOf(env.resolve(sourcePath, self.materialType))
      case None => None
      case Some(typeId) =>
        if mode == PreBake && !env.typeAssetLoads(typeId) then None
        else
          match Inherited(self, env, sourcePath, mode, typeId)
          case None => None
          case Some(inherited) =>
            var state := ApplyLayer(inherited, self, sourcePath, env.imageLookup);
            if env.end(state) then Some(state) else None
  }

  /** The inheritance loops of `CreateMaterialAsset`. */
  method SetPropertyValues(creator: MaterialAssetCreator, pairs: seq<(PropertyId, Value)>)
    modifies creator
    ensures creator.State() == SetAll(old(creator.State()), pairs)
  {
    ghost var start := creator.State();
    var i := 0;
    while i < |pairs|
      invariant 0 <= i <= |pairs|
      invariant creator.State() == SetAll(start, pairs[..i])
    {
      assert pairs[..i + 1][..i] == pairs[..i];
      creator.SetPropertyValue(pairs[i].0, pairs[i].1);
      i := i + 1;
    }
    assert pairs[..i] == pairs;
  }

  /** `MaterialSourceData::CreateMaterialAsset`: the created asset's state, or `None` on failure. */
  method CreateMaterialAsset(self: MaterialSource, env: Environment, sourcePath: string, mode: ProcessingMode)
    returns (r: Option<CreatorState>)
    ensures r == CreatedAsset(self, env, sourcePath, mode)
  {
    var creator := new MaterialAssetCreator();
    if self.materialType == "" {
      return None;
    }
    var typeId := env.assetIdOf(env.resolve(sourcePath, self.materialType));
    if typeId.None? {
      return None;
    }
    if mode == PreBake && !env.typeAssetLoads(typeId.value) {
      return None;
    }
    if self.parentMaterial != "" {
      var parentPath := env.resolve(sourcePath, self.parentMaterial);
      if parentPath !in env.materialAssets {
        return None;
      }
      var parent := env.materialAssets[parentPath];
      if parent.typeId != typeId.value {
        return None;
      }
      if mode == DeferredBake {
        SetPropertyValues(creator, parent.rawPropertyValues);
      } else {
        if |parent.propertyValues| != |parent.layoutNames| {
          return None;
        }
        SetPropertyValues(creator, Zip(parent.layoutNames, parent.propertyValues));
      }
    }
    ApplyPropertiesToAssetCreator(self, creator, sourcePath, env.imageLookup);
    if !env.end(creator.State()) {
      return None;
    }
    return Some(creator.State());
  }

  // ---------------------------------------------------------------------------
  // Properties
  // ---------------------------------------------------------------------------

  lemma {:induction false} ApplyEntriesAppend(state: CreatorState, a: seq<(PropertyId, Value)>, b: seq<(PropertyId, Value)>,
                                              sourcePath: string, lookup: (string, string) -> Option<string>)
    ensures ApplyEntries(state, a + b, sourcePath, lookup) == ApplyEntries(ApplyEntries(state, a, sourcePath, lookup), b, sourcePath, lookup)
    decreases |b|
  {
    if b == [] {
      assert a + b == a;
    } else {
      assert (a + b)[..|a + b| - 1] == a + b[..|b| - 1];
      ApplyEntriesAppend(state, a, b[..|b| - 1], sourcePath, lookup);
    }
  }

  /**
   * One property: an invalid value only adds a warning; an image reference is
   * set as a preloaded image asset even when missing, with a warning exactly
   * then; any other value is set unchanged without a warning.
   */
  lemma ApplyEntryEffect(state: CreatorState, id: PropertyId, v: Value, sourcePath: string, lookup: (string, string) -> Option<string>)
    ensures var r := ApplyEntry(state, id, v, sourcePath, lookup);
            && (!IsValid(v) ==> r.values == state.values && r.warnings == state.warnings + [InvalidSourceValue(id)])
            && (v.Str? && HasDot(v.s) ==>
                  r.values == state.values[id := ImageAsset(ImageAssetRef(lookup(sourcePath, v.s), true))]
                  && r.warnings == state.warnings + (if lookup(sourcePath, v.s).None? then [MissingImage(id, v.s)] else []))
            && (IsValid(v) && !(v.Str? && HasDot(v.s)) ==> r == state.(values := state.values[id := v]))
  {
    if v.Str? && HasDot(v.s) && lookup(sourcePath, v.s).Some? {
      assert state.warnings + [] == state.warnings;
    }
  }

  /** After a list of properties, `id` holds the value its last valid entry sets, or what it held before. */
  lemma {:induction false} ApplyEntriesValue(state: CreatorState, entries: seq<(PropertyId, Value)>, id: PropertyId,
                                             sourcePath: string, lookup: (string, string) -> Option<string>)
    ensures var r := ApplyEntries(state, entries, sourcePath, lookup);
            var s := LastSet(entries, id, sourcePath, lookup);
            && (s.Some? ==> id in r.values && r.values[id] == s.value)
            && (s.None? ==> (id in r.values <==> id in state.values) && (id in state.values ==> r.values[id] == state.values[id]))
    decreases |entries|
  {
    if entries != [] {
      ApplyEntriesValue(state, entries[..|entries| - 1], id, sourcePath, lookup);
    }
  }

  /**
   * Layers apply from the farthest ancestor to the nearest: after the stack,
   * `id` holds the value of the nearest parent that sets it, or what it held
   * before when none does.
   */
  lemma {:induction false} NearestParentWins(state: CreatorState, stack: seq<MaterialSource>, id: PropertyId,
                                             sourcePath: string, lookup: (string, string) -> Option<string>)
    ensures var r := ApplyStack(state, stack, sourcePath, lookup);
            var s := FirstSet(stack, id, sourcePath, lookup);
            && (s.Some? ==> id in r.values && r.values[id] == s.value)
            && (s.None? ==> (id in r.values <==> id in state.values) && (id in state.values ==> r.values[id] == state.values[id]))
    decreases |stack|
  {
    if stack != [] {
      var last := stack[|stack| - 1];
      var next := ApplyLayer(state, last, sourcePath, lookup);
      ApplyEntriesValue(state, Entries(last.properties), id, sourcePath, lookup);
      NearestParentWins(next, stack[..|stack| - 1], id, sourcePath, lookup);
    }
  }

  /**
   * In a material created from source data, a property holds the value the
   * material itself sets, else the one its nearest parent sets, and is absent
   * when no layer sets it.
   */
  lemma CreatedValues(self: MaterialSource, env: Environment, sourcePath: string, id: PropertyId)
    requires FromSourceData(self, env, sourcePath).Some?
    ensures var values := FromSourceData(self, env, sourcePath).value.asset.values;
            var typePath := env.resolve(sourcePath, self.materialType);
            var walk := ParentChain(env, env.assetIdOf(typePath).value, {sourcePath, typePath}, self.parentMaterial,
                                    env.resolve(sourcePath, self.parentMaterial)).value;
            var own := LayerSet(self, id, sourcePath, env.imageLookup);
            var inherited := FirstSet(walk.stack, id, sourcePath, env.imageLookup);
            && (own.Some? ==> id in values && values[id] == own.value)
            && (own.None? && inherited.Some? ==> id in values && values[id] == inherited.value)
            && (own.None? && inherited.None? ==> id !in values)
  {
    var typePath := env.resolve(sourcePath, self.materialType);
    var walk := ParentChain(env, env.assetIdOf(typePath).value, {sourcePath, typePath}, self.parentMaterial,
                            env.resolve(sourcePath, self.parentMaterial)).value;
    var afterParents := ApplyStack(EmptyState, walk.stack, sourcePath, env.imageLookup);
    NearestParentWins(EmptyState, walk.stack, id, sourcePath, env.imageLookup);
    ApplyEntriesValue(afterParents, Entries(self.properties), id, sourcePath, env.imageLookup);
  }

  /** Both creation paths fail at once when the material type is empty. */
  lemma EmptyMaterialTypeFails(self: MaterialSource, env: Environment, sourcePath: string, mode: ProcessingMode)
    requires self.materialType == ""
    ensures FromSourceData(self, env, sourcePath).None?
    ensures CreatedAsset(self, env, sourcePath, mode).None?
  {
  }

  /** A parent reference that resolves to a path already in the dependency set is a cycle, and the walk fails. */
  lemma CycleFails(env: Environment, typeId: AssetId, deps: set<string>, relPath: string, absPath: string)
    requires relPath != "" && absPath in deps
    ensures ParentChain(env, typeId, deps, relPath, absPath).None?
  {
  }

  /**
   * Every parent of a successful walk was loaded from its path, has the
   * material type `typeId`, and was visited once, outside the initial
   * dependencies; the final dependencies are the initial ones plus those paths.
   */
  lemma {:induction false} ChainMembers(env: Environment, typeId: AssetId, deps: set<string>, relPath: string, absPath: string)
    requires ParentChain(env, typeId, deps, relPath, absPath).Some?
    ensures var w := ParentChain(env, typeId, deps, relPath, absPath).value;
            && |w.stack| == |w.paths|
            && (forall i :: 0 <= i < |w.paths| ==>
                  w.paths[i] in env.sourceFiles && env.sourceFiles[w.paths[i]] == w.stack[i]
                  && env.assetIdOf(env.resolve(w.paths[i], w.stack[i].materialType)) == Some(typeId)
                  && w.paths[i] !in deps)
            && (forall i, j :: 0 <= i < j < |w.paths| ==> w.paths[i] != w.paths[j])
            && (forall p :: p in w.dependencies <==> p in deps || p in w.paths)
    decreases |env.sourceFiles.Keys - deps|
  {
    if relPath != "" {
      var parent := env.sourceFiles[absPath];
      SetShrinks(env.sourceFiles.Keys, deps, absPath);
      var nextRel := parent.parentMaterial;
      var nextAbs := env.resolve(absPath, nextRel);
      ChainMembers(env, typeId, deps + {absPath}, nextRel, nextAbs);
      var rest := ParentChain(env, typeId, deps + {absPath}, nextRel, nextAbs).value;
      var w := ParentChain(env, typeId, deps, relPath, absPath).value;
      assert w.paths == [absPath] + rest.paths && w.stack == [parent] + rest.stack;
      assert forall i :: 0 < i < |w.paths| ==> w.paths[i] == rest.paths[i - 1] && w.stack[i] == rest.stack[i - 1];
    }
  }

  /**
   * A successful walk follows the parent links: the first path is the resolved
   * parent reference, each next path is the previous parent's reference resolved
   * against its path, and the chain ends at a parent without a parent.
   */
  lemma {:induction false} ChainFollowsParents(env: Environment, typeId: AssetId, deps: set<string>, relPath: string, absPath: string)
    requires ParentChain(env, typeId, deps, relPath, absPath).Some?
    ensures var w := ParentChain(env, typeId, deps, relPath, absPath).value;
            && |w.stack| == |w.paths|
            && (relPath == "" <==> w.stack == [])
            && (w.paths != [] ==> w.paths[0] == absPath)
            && (forall i :: 0 <= i < |w.paths| - 1 ==>
                  w.stack[i].parentMaterial != "" && w.paths[i + 1] == env.resolve(w.paths[i], w.stack[i].parentMaterial))
            && (w.stack != [] ==> w.stack[|w.stack| - 1].parentMaterial == "")
    decreases |env.sourceFiles.Keys - deps|
  {
    if relPath != "" {
      var parent := env.sourceFiles[absPath];
      SetShrinks(env.sourceFiles.Keys, deps, absPath);
      var nextRel := parent.parentMaterial;
      var nextAbs := env.resolve(absPath, nextRel);
      ChainFollowsParents(env, typeId, deps + {absPath}, nextRel, nextAbs);
      var rest := ParentChain(env, typeId, deps + {absPath}, nextRel, nextAbs).value;
      var w := ParentChain(env, typeId, deps, relPath, absPath).value;
      assert w.paths == [absPath] + rest.paths && w.stack == [parent] + rest.stack;
      assert forall i :: 0 < i < |w.paths| ==> w.paths[i] == rest.paths[i - 1] && w.stack[i] == rest.stack[i - 1];
    }
  }

  /** `CreateMaterialAsset` fails when the parent asset's material type differs from the material's. */
  lemma ParentTypeMismatchFails(self: MaterialSource, env: Environment, sourcePath: string, mode: ProcessingMode)
    requires self.materialType != "" && self.parentMaterial != ""
    requires env.assetIdOf(env.resolve(sourcePath, self.materialType)).Some?
    requires env.resolve(sourcePath, self.parentMaterial) in env.materialAssets
    requires env.materialAssets[env.resolve(sourcePath, self.parentMaterial)].typeId != env.assetIdOf(env.resolve(sourcePath, self.materialType)).value
    ensures CreatedAsset(self, env, sourcePath, mode).None?
  {
  }

  /** In `CreateMaterialAsset` the material's own valid values override what it inherits. */
  lemma OwnValuesOverrideParent(self: MaterialSource, env: Environment, sourcePath: string, mode: ProcessingMode, id: PropertyId)
    requires CreatedAsset(self, env, sourcePath, mode).Some?
    requires LayerSet(self, id, sourcePath, env.imageLookup).Some?
    ensures id in CreatedAsset(self, env, sourcePath, mode).value.values
    ensures CreatedAsset(self, env, sourcePath, mode).value.values[id] == LayerSet(self, id, sourcePath, env.imageLookup).value
  {
    var typeId := env.assetIdOf(env.resolve(sourcePath, self.materialType)).value;
    var inherited := Inherited(self, env, sourcePath, mode, typeId).value;
    ApplyEntriesValue(inherited, Entries(self.properties), id, sourcePath, env.imageLookup);
  }
}
