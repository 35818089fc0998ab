/**
 * `NetworkHierarchyRootComponent`: the multiplayer component that marks an entity
 * as the root of a network entity hierarchy. It collects the enabled hierarchy
 * entities under its entity breadth-first, up to `bg_hierarchyEntityMaxLimit`,
 * and tells the entities that join or leave which root they now belong to.
 *
 * The entities, their components and their transform children are a `World`
 * snapshot passed in as a parameter (the component application's `FindEntity`
 * and the transform bus). What this component tells other components is
 * recorded in a notification log rather than applied to them.
 */
module NetworkHierarchyRoot {
  import opened Wrappers

  type EntityId = nat

  /** A component of an entity, as far as the hierarchy cares. */
  datatype ComponentKind =
    | HierarchyChild(childEnabled: bool)
    | HierarchyRoot(rootEnabled: bool)
    | OtherComponent

  predicate IsHierarchyComponent(c: ComponentKind)
  {
    c.HierarchyChild? || c.HierarchyRoot?
  }

  /** An entity: its components in order, and the ids of its transform children. */
  datatype EntityInfo = EntityInfo(components: seq<ComponentKind>, children: seq<EntityId>)

  /** The entities `FindEntity` can find. */
  type World = map<EntityId, EntityInfo>

  /** What this component tells the world. */
  datatype Notification =
    | RootSet(entity: EntityId, root: Option<EntityId>)  // `SetTopLevelHierarchyRootEntity` on the entity's hierarchy component
    | RebuildRequested(rootEntity: EntityId)              // `RebuildHierarchy` on the root entity's root component
    | HierarchyChanged(entity: EntityId)                  // the network-hierarchy-changed event

  /** The index of the first hierarchy component, the one `GetHierarchyComponents` returns. */
  function FirstHierarchyComponent(components: seq<ComponentKind>): (r: Option<nat>)
    ensures r.Some? ==> r.value < |components|
  {
    if |components| == 0 then None
    else if IsHierarchyComponent(components[0]) then Some(0)
    else
      var rest := FirstHierarchyComponent(components[1..]);
      if rest.Some? then Some(rest.value + 1) else None
  }

  /** The component `FirstHierarchyComponent` picks is a hierarchy component, and no earlier one is. */
  lemma {:induction false} FirstHierarchyComponentIsFirst(components: seq<ComponentKind>)
    ensures var r := FirstHierarchyComponent(components);
            && (r.Some? ==> IsHierarchyComponent(components[r.value]))
            && (r.Some? ==> forall j :: 0 <= j < r.value ==> !IsHierarchyComponent(components[j]))
            && (r.None? ==> forall j :: 0 <= j < |components| ==> !IsHierarchyComponent(components[j]))
  {
    if |components| > 0 && !IsHierarchyComponent(components[0]) {
      FirstHierarchyComponentIsFirst(components[1..]);
    }
  }

  /**
   * `GetHierarchyComponents`: at most one of the two is set, the first child or
   * root component in component order.
   */
  method GetHierarchyComponents(components: seq<ComponentKind>) returns (rootComponent: Option<nat>, childComponent: Option<nat>)
    ensures !(rootComponent.Some? && childComponent.Some?)
    ensures childComponent.Some? <==> FirstHierarchyComponent(components).Some? && components[FirstHierarchyComponent(components).value].HierarchyChild?
    ensures rootComponent.Some? <==> FirstHierarchyComponent(components).Some? && components[FirstHierarchyComponent(components).value].HierarchyRoot?
    ensures childComponent.Some? ==> childComponent == FirstHierarchyComponent(components)
    ensures rootComponent.Some? ==> rootComponent == FirstHierarchyComponent(components)
  {
    rootComponent := None;
    childComponent := None;
    FirstHierarchyComponentIsFirst(components);
    for i := 0 to |components|
      invariant forall j :: 0 <= j < i ==> !IsHierarchyComponent(components[j])
    {
      if components[i].HierarchyChild? {
        childComponent := Some(i);
        return;
      }
      if components[i].HierarchyRoot? {
        rootComponent := Some(i);
        return;
      }
    }
  }

  /** The entity exists and has a hierarchy component. */
  predicate HasHierarchyComponent(world: World, e: EntityId)
  {
    e in world && FirstHierarchyComponent(world[e].components).Some?
  }

  /** The entity's hierarchy component exists and its hierarchy is enabled. */
  predicate HierarchyEnabled(world: World, e: EntityId)
  {
    && HasHierarchyComponent(world, e)
    && var c := world[e].components[FirstHierarchyComponent(world[e].components).value];
       (c.HierarchyChild? && c.childEnabled) || (c.HierarchyRoot? && c.rootEnabled)
  }

  /** `FindEntity` for each id: `None` for an id no entity has. */
  function FindEntities(world: World, ids: seq<EntityId>): (r: seq<Option<EntityId>>)
    ensures |r| == |ids|
    ensures forall i :: 0 <= i < |ids| ==> r[i] == (if ids[i] in world then Some(ids[i]) else None)
  {
    if |ids| == 0 then [] else FindEntities(world, ids[..|ids| - 1]) + [if ids[|ids| - 1] in world then Some(ids[|ids| - 1]) else None]
  }

  /**
   * The entities `InternalBuildHierarchyList` appends to `found`, from the
   * candidate queue `candidates`: the front candidate is taken if it was found
   * and its hierarchy is enabled, and then its children are queued; collection
   * stops as soon as the list reaches `limit`.
   */
  function Collect(world: World, limit: nat, candidates: seq<Option<EntityId>>, found: seq<EntityId>): seq<EntityId>
    requires |found| < limit || found == []
    decreases limit - |found|, |candidates|
  {
    if candidates == [] then found
    else
      var candidate := candidates[0];
      if candidate.Some? && HierarchyEnabled(world, candidate.value) then
        var grown := found + [candidate.value];
        if |grown| >= limit then grown
        else Collect(world, limit, candidates[1..] + FindEntities(world, world[candidate.value].children), grown)
      else Collect(world, limit, candidates[1..], found)
  }

  /** The hierarchy list built under `root`. */
  function HierarchyList(world: World, limit: nat, root: EntityId): seq<EntityId>
  {
    Collect(world, limit, [Some(root)], [])
  }

  /** The inner loop of `InternalBuildHierarchyList`: queues `FindEntity` of each child id, in order. */
  method QueueChildren(world: World, candidates: seq<Option<EntityId>>, allChildren: seq<EntityId>) returns (queued: seq<Option<EntityId>>)
    ensures queued == candidates + FindEntities(world, allChildren)
  {
    queued := candidates;
    for i := 0 to |allChildren|
      invariant queued == candidates + FindEntities(world, allChildren[..i])
    {
      assert allChildren[..i + 1][..i] == allChildren[..i];
      queued := queued + [if allChildren[i] in world then Some(allChildren[i]) else None];
    }
    assert allChildren[..|allChildren|] == allChildren;
  }

  // ---------------------------------------------------------------------------
  // The diff of the previous and the rebuilt list
  // ---------------------------------------------------------------------------

  /** `erase(find(s, x))`: `s` without its first occurrence of `x`. */
  function RemoveFirst(s: seq<EntityId>, x: EntityId): seq<EntityId>
    requires x in s
  {
    if s[0] == x then s[1..]
    else [s[0]] + RemoveFirst(s[1..], x)
  }

  /** Erasing the first occurrence removes exactly one `x` from the multiset. */
  lemma {:induction false} RemoveFirstMultiset(s: seq<EntityId>, x: EntityId)
    requires x in s
    ensures multiset(RemoveFirst(s, x)) == multiset(s) - multiset{x}
  {
    assert s == [s[0]] + s[1..];
    if s[0] != x {
      RemoveFirstMultiset(s[1..], x);
    }
  }

  /** The previous entities not yet matched after walking `current`: each match erases one occurrence. */
  function Unmatched(previous: seq<EntityId>, current: seq<EntityId>): seq<EntityId>
  {
    if current == [] then previous
    else
      var before := Unmatched(previous, current[..|current| - 1]);
      var x := current[|current| - 1];
      if x in before then RemoveFirst(before, x) else before
  }

  /** The entities of `current` that found no previous occurrence to match: the newly added ones, in order. */
  function Added(previous: seq<EntityId>, current: seq<EntityId>): seq<EntityId>
  {
    if current == [] then []
    else
      var before := Unmatched(previous, current[..|current| - 1]);
      var x := current[|current| - 1];
      Added(previous, current[..|current| - 1]) + (if x in before then [] else [x])
  }

  lemma UnmatchedAddedSnoc(previous: seq<EntityId>, current: seq<EntityId>, x: EntityId)
    ensures Unmatched(previous, current + [x])
            == if x in Unmatched(previous, current) then RemoveFirst(Unmatched(previous, current), x) else Unmatched(previous, current)
    ensures Added(previous, current + [x])
            == Added(previous, current) + (if x in Unmatched(previous, current) then [] else [x])
  {
    assert (current + [x])[..|current|] == current;
  }

  /** `SetRootForEntity(root, e)` for each `e`: only entities with a hierarchy component are told. */
  function RootSets(world: World, entities: seq<EntityId>, root: Option<EntityId>): (r: seq<Notification>)
    ensures |r| <= |entities|
  {
    if entities == [] then []
    else
      var init := RootSets(world, entities[..|entities| - 1], root);
      var e := entities[|entities| - 1];
      if HasHierarchyComponent(world, e) then init + [RootSet(e, root)] else init
  }

  lemma ConcatAssoc3(a: seq<Notification>, b: seq<Notification>, c: seq<Notification>)
    ensures a + b + c == a + (b + c)
  {
  }

  lemma ConcatAssoc(a: seq<Notification>, b: seq<Notification>, c: seq<Notification>, d: seq<Notification>)
    ensures a + b + c + d == a + (b + c + d)
  {
  }

  lemma RootSetsSnoc(world: World, entities: seq<EntityId>, root: Option<EntityId>, e: EntityId)
    ensures RootSets(world, entities + [e], root)
            == RootSets(world, entities, root) + (if HasHierarchyComponent(world, e) then [RootSet(e, root)] else [])
  {
    assert (entities + [e])[..|entities|] == entities;
  }

  /** What `SetRootForEntity(root, e)` tells the world: only an entity with a hierarchy component is told. */
  function Told(world: World, e: EntityId, root: Option<EntityId>): seq<Notification>
  {
    if HasHierarchyComponent(world, e) then [RootSet(e, root)] else []
  }

  /** One step of the first rebuild loop: matching `x` against the previous entities still unmatched. */
  lemma JoinStep(previous: seq<EntityId>, before: seq<EntityId>, x: EntityId)
    ensures var u := Unmatched(previous, before);
            && Unmatched(previous, before + [x]) == (if x in u then RemoveFirst(u, x) else u)
            && Added(previous, before + [x]) == Added(previous, before) + (if x in u then [] else [x])
  {
    UnmatchedAddedSnoc(previous, before, x);
  }

  /** What `RebuildHierarchy` tells the world, going from `previous` to `current`. */
  function RebuildNotifications(world: World, self: EntityId, previous: seq<EntityId>, current: seq<EntityId>): seq<Notification>
  {
    var added := Added(previous, current);
    var removed := Unmatched(previous, current);
    RootSets(world, added, Some(self)) + RootSets(world, removed, None)
    + (if |added| > 0 || |removed| > 0 then [HierarchyChanged(self)] else [])
  }

  // ---------------------------------------------------------------------------
  // This component's own entity and its replicated root
  // ---------------------------------------------------------------------------

  /**
   * The world as this component sees it: its own entity carries this root
   * component, enabled as `enabled` says (a root component excludes every other
   * hierarchy component on its entity), and keeps the transform children the
   * world gives it. `GetEntity()` needs no lookup, so the own entity is always found.
   */
  function SelfView(world: World, self: EntityId, enabled: bool): World
  {
    world[self := EntityInfo([HierarchyRoot(enabled)], if self in world then world[self].children else [])]
  }

  /** The net bind component's role and the network entity manager's id lookup. */
  datatype Network = Network(
    isAuthority: bool,
    /** `GetNetEntityIdById`; `None` is `InvalidNetEntityId`. */
    netEntityIdOf: EntityId -> Option<nat>)

  /** The replicated id of a root: `InvalidNetEntityId` for no root. */
  function ReplicatedRoot(net: Network, root: Option<EntityId>): Option<nat>
  {
    if root.Some? then net.netEntityIdOf(root.value) else None
  }

  /**
   * This component's root after a rebuild from `previous` to `current`: the
   * rebuild tells its own entity this root when it joins and no root when it leaves.
   */
  function RebuiltRoot(self: EntityId, previous: seq<EntityId>, current: seq<EntityId>, before: Option<EntityId>): Option<EntityId>
  {
    if self in Unmatched(previous, current) then None
    else if self in Added(previous, current) then Some(self)
    else before
  }

  /** The replicated root after the same rebuild: only the authority replicates. */
  function RebuiltReplica(net: Network, self: EntityId, previous: seq<EntityId>, current: seq<EntityId>, before: Option<nat>): Option<nat>
  {
    if !net.isAuthority then before
    else if self in Unmatched(previous, current) then None
    else if self in Added(previous, current) then net.netEntityIdOf(self)
    else before
  }

  /**
   * The two loops of a rebuild and its final signal, taken together, give the
   * notifications and the roots the rebuild is specified to give.
   */
  lemma RebuildSteps(world: World, net: Network, self: EntityId, previous: seq<EntityId>, current: seq<EntityId>, changed: bool,
                     log0: seq<Notification>, log1: seq<Notification>, log2: seq<Notification>, log3: seq<Notification>,
                     root0: Option<EntityId>, root1: Option<EntityId>, root2: Option<EntityId>,
                     replica0: Option<nat>, replica1: Option<nat>, replica2: Option<nat>)
    requires log1 == log0 + RootSets(world, Added(previous, current), Some(self))
    requires root1 == (if self in Added(previous, current) then Some(self) else root0)
    requires replica1 == (if self in Added(previous, current) && net.isAuthority then net.netEntityIdOf(self) else replica0)
    requires log2 == log1 + RootSets(world, Unmatched(previous, current), None)
    requires root2 == (if self in Unmatched(previous, current) then None else root1)
    requires replica2 == (if self in Unmatched(previous, current) && net.isAuthority then None else replica1)
    requires changed <==> |Added(previous, current)| > 0 || |Unmatched(previous, current)| > 0
    requires log3 == log2 + (if changed then [HierarchyChanged(self)] else [])
    ensures log3 == log0 + RebuildNotifications(world, self, previous, current)
    ensures root2 == RebuiltRoot(self, previous, current, root0)
    ensures replica2 == RebuiltReplica(net, self, previous, current, replica0)
  {
    ConcatAssoc(log0, RootSets(world, Added(previous, current), Some(self)), RootSets(world, Unmatched(previous, current), None),
                if changed then [HierarchyChanged(self)] else []);
  }

  /**
   * How many entities a rebuild of `list` would now tell to join or to leave: a
   * rebuild nested in a rebuild finds the list just built and tells none.
   */
  ghost function Pending(world: World, self: EntityId, enabled: bool, limit: nat, list: seq<EntityId>): nat
  {
    var current := HierarchyList(SelfView(world, self, enabled), limit, self);
    |Unmatched(list, current)| + |Added(list, current)|
  }

  /** Matching a list against a prefix of itself leaves the rest unmatched and adds nothing. */
  lemma {:induction false} MatchAgainstItself(list: seq<EntityId>, i: nat)
    requires i <= |list|
    ensures Unmatched(list, list[..i]) == list[i..] && Added(list, list[..i]) == []
    decreases i
  {
    if i > 0 {
      MatchAgainstItself(list, i - 1);
      assert list[..i][..i - 1] == list[..i - 1];
      assert list[i - 1..][0] == list[i - 1] && list[i - 1..][1..] == list[i..];
    }
  }

  /** A rebuild that finds the list it had tells nothing and changes no root. */
  lemma UnchangedListNotifiesNothing(world: World, self: EntityId, list: seq<EntityId>)
    ensures Unmatched(list, list) == [] && Added(list, list) == []
    ensures RebuildNotifications(world, self, list, list) == []
  {
    MatchAgainstItself(list, |list|);
    assert list[..|list|] == list;
  }

  /** A disabled component builds an empty list; an enabled one lists its own entity first. */
  lemma OwnEnabledDecidesList(world: World, limit: nat, self: EntityId, enabled: bool)
    ensures var list := HierarchyList(SelfView(world, self, enabled), limit, self);
            && (list == [] <==> !enabled)
            && (enabled ==> list[0] == self)
  {
    var view := SelfView(world, self, enabled);
    assert FirstHierarchyComponent(view[self].components) == Some(0);
    HierarchyListEmpty(view, limit, self);
    HierarchyListMembers(view, limit, self);
  }

  /** Only the own entity looks different to this component. */
  lemma SelfViewElsewhere(world: World, self: EntityId, enabled: bool, e: EntityId, root: Option<EntityId>)
    requires e != self
    ensures Told(SelfView(world, self, enabled), e, root) == Told(world, e, root)
  {
  }

  // ---------------------------------------------------------------------------
  // The component
  // ---------------------------------------------------------------------------

  class NetworkHierarchyRootComponent {
    /** The entity this component is on. */
    const self: EntityId
    /** `bg_hierarchyEntityMaxLimit`. */
    const maxLimit: nat
    var isHierarchyEnabled: bool
    var hierarchicalEntities: seq<EntityId>
    var rootEntity: Option<EntityId>
    /** The replicated hierarchy root; `None` is `InvalidNetEntityId`. */
    var hierarchyRoot: Option<nat>
    var log: seq<Notification>

    constructor (self: EntityId, maxLimit: nat)
      ensures this.self == self && this.maxLimit == maxLimit
      ensures !isHierarchyEnabled && hierarchicalEntities == [] && rootEntity == None && hierarchyRoot == None && log == []
    {
      this.self := self;
      this.maxLimit := maxLimit;
      isHierarchyEnabled := false;
      hierarchicalEntities := [];
      rootEntity := None;
      hierarchyRoot := None;
      log := [];
    }

    /** `IsHierarchicalRoot`: the replicated root is invalid. */
    predicate IsHierarchicalRoot()
      reads this
      ensures IsHierarchicalRoot() <==> hierarchyRoot.None?
    {
      hierarchyRoot.None?
    }

    /** `IsHierarchicalChild`. */
    predicate IsHierarchicalChild()
      reads this
      ensures IsHierarchicalChild() <==> hierarchyRoot.Some?
    {
      !IsHierarchicalRoot()
    }

    /** `GetHierarchicalRoot`: the stored root entity if set, else this component's own entity. */
    function GetHierarchicalRoot(): (r: EntityId)
      reads this
      ensures rootEntity.Some? ==> r == rootEntity.value
      ensures rootEntity.None? ==> r == self
    {
      if rootEntity.Some? then rootEntity.value else self
    }

    /**
     * `InternalBuildHierarchyList`: appends the enabled hierarchy entities under
     * `underEntity`, breadth first; the own entity counts as enabled exactly when
     * this component is.
     */
    method InternalBuildHierarchyList(world: World, underEntity: EntityId)
      requires hierarchicalEntities == []
      modifies this
      ensures hierarchicalEntities == HierarchyList(SelfView(world, self, isHierarchyEnabled), maxLimit, underEntity)
      ensures isHierarchyEnabled == old(isHierarchyEnabled) && rootEntity == old(rootEntity)
      ensures hierarchyRoot == old(hierarchyRoot) && log == old(log)
    {
      var seen := SelfView(world, self, isHierarchyEnabled);
      var candidates: seq<Option<EntityId>> := [Some(underEntity)];
      while candidates != []
        invariant |hierarchicalEntities| < maxLimit || hierarchicalEntities == []
        invariant Collect(seen, maxLimit, candidates, hierarchicalEntities) == HierarchyList(seen, maxLimit, underEntity)
        invariant isHierarchyEnabled == old(isHierarchyEnabled) && rootEntity == old(rootEntity)
        invariant hierarchyRoot == old(hierarchyRoot) && log == old(log)
        decreases maxLimit - |hierarchicalEntities|, |candidates|
      {
        var candidate := candidates[0];
        candidates := candidates[1..];
        if candidate.Some? && HierarchyEnabled(seen, candidate.value) {
          hierarchicalEntities := hierarchicalEntities + [candidate.value];
          if |hierarchicalEntities| >= maxLimit {
            return;
          }
          candidates := QueueChildren(seen, candidates, seen[candidate.value].children);
        }
      }
    }

    /**
     * `RebuildHierarchy`: rebuilds the list under this entity, gives every newly
     * added entity this root and every dropped entity no root, and signals the
     * change when anything was added or dropped. When the own entity is among
     * them, this component is told too.
     */
    method RebuildHierarchy(world: World, net: Network)
      modifies this
      ensures hierarchicalEntities == HierarchyList(SelfView(world, self, isHierarchyEnabled), maxLimit, self)
      ensures log == old(log) + RebuildNotifications(SelfView(world, self, isHierarchyEnabled), self, old(hierarchicalEntities), hierarchicalEntities)
      ensures rootEntity == RebuiltRoot(self, old(hierarchicalEntities), hierarchicalEntities, old(rootEntity))
      ensures hierarchyRoot == RebuiltReplica(net, self, old(hierarchicalEntities), hierarchicalEntities, old(hierarchyRoot))
      ensures isHierarchyEnabled == old(isHierarchyEnabled)
      decreases Pending(world, self, isHierarchyEnabled, maxLimit, hierarchicalEntities), 4
    {
      var previousEntities := hierarchicalEntities;
      hierarchicalEntities := [];
      InternalBuildHierarchyList(world, self);
      var hierarchyChanged;
      previousEntities, hierarchyChanged := NotifyJoined(world, net, previousEntities, hierarchicalEntities);
      ghost var joinedLog, joinedRoot, joinedReplica := log, rootEntity, hierarchyRoot;
      NotifyLeft(world, net, previousEntities);
      ghost var leftLog := log;
      if |previousEntities| > 0 {
        hierarchyChanged := true;
      }
      if hierarchyChanged {
        log := log + [HierarchyChanged(self)];
      }
      RebuildSteps(SelfView(world, self, isHierarchyEnabled), net, self, old(hierarchicalEntities), hierarchicalEntities, hierarchyChanged,
                   old(log), joinedLog, leftLog, log, old(rootEntity), joinedRoot, rootEntity, old(hierarchyRoot), joinedReplica, hierarchyRoot);
    }

    /**
     * The first loop of `RebuildHierarchy`: each current entity erases its match
     * from the previous ones, or else is new and is given this root.
     */
    method NotifyJoined(world: World, net: Network, previous: seq<EntityId>, current: seq<EntityId>)
      returns (previousEntities: seq<EntityId>, hierarchyChanged: bool)
      modifies this
      ensures previousEntities == Unmatched(previous, current)
      ensures hierarchyChanged <==> |Added(previous, current)| > 0
      ensures Joined(world, net, Added(previous, current), old(log), old(rootEntity), old(hierarchyRoot))
      ensures hierarchicalEntities == old(hierarchicalEntities) && isHierarchyEnabled == old(isHierarchyEnabled)
      decreases 0, 3
    {
      previousEntities := previous;
      hierarchyChanged := false;
      for i := 0 to |current|
        invariant hierarchicalEntities == old(hierarchicalEntities) && isHierarchyEnabled == old(isHierarchyEnabled)
        invariant previousEntities == Unmatched(previous, current[..i])
        invariant hierarchyChanged <==> |Added(previous, current[..i])| > 0
        invariant Joined(world, net, Added(previous, current[..i]), old(log), old(rootEntity), old(hierarchyRoot))
      {
        var currentEntity := current[i];
        assert current[..i + 1] == current[..i] + [currentEntity];
        var isNew;
        previousEntities, isNew := JoinOne(world, net, previous, current[..i], previousEntities, currentEntity, old(log), old(rootEntity), old(hierarchyRoot));
        if isNew {
          hierarchyChanged := true;
        }
      }
      assert current[..|current|] == current;
    }

    /** The second loop of `RebuildHierarchy`: each unmatched previous entity is given no root. */
    method NotifyLeft(world: World, net: Network, removed: seq<EntityId>)
      requires hierarchicalEntities == HierarchyList(SelfView(world, self, isHierarchyEnabled), maxLimit, self)
      modifies this
      ensures Left(world, net, removed, old(log), old(rootEntity), old(hierarchyRoot))
      ensures hierarchicalEntities == old(hierarchicalEntities) && isHierarchyEnabled == old(isHierarchyEnabled)
      decreases |removed|, 3
    {
      for i := 0 to |removed|
        invariant hierarchicalEntities == old(hierarchicalEntities) && isHierarchyEnabled == old(isHierarchyEnabled)
        invariant Left(world, net, removed[..i], old(log), old(rootEntity), old(hierarchyRoot))
      {
        assert removed[..i + 1] == removed[..i] + [removed[i]];
        TellLeaving(world, net, removed[..i], removed[i], old(log), old(rootEntity), old(hierarchyRoot));
      }
      assert removed[..|removed|] == removed;
    }

    /** What the first loop of `RebuildHierarchy` has done once it told each of `added` this root. */
    ghost predicate Joined(world: World, net: Network, added: seq<EntityId>, log0: seq<Notification>, root0: Option<EntityId>, replica0: Option<nat>)
      reads this
    {
      && log == log0 + RootSets(SelfView(world, self, isHierarchyEnabled), added, Some(self))
      && rootEntity == (if self in added then Some(self) else root0)
      && hierarchyRoot == (if self in added && net.isAuthority then net.netEntityIdOf(self) else replica0)
    }

    /**
     * One step of the first loop: a current entity erases its first match among
     * the previous entities still unmatched, or else is new and is given this root.
     */
    method JoinOne(world: World, net: Network, previous: seq<EntityId>, ghost before: seq<EntityId>, unmatched: seq<EntityId>, currentEntity: EntityId,
                   ghost log0: seq<Notification>, ghost root0: Option<EntityId>, ghost replica0: Option<nat>)
      returns (remaining: seq<EntityId>, isNew: bool)
      requires unmatched == Unmatched(previous, before)
      requires Joined(world, net, Added(previous, before), log0, root0, replica0)
      modifies this
      ensures isNew <==> currentEntity !in unmatched
      ensures remaining == Unmatched(previous, before + [currentEntity])
      ensures |Added(previous, before + [currentEntity])| > 0 <==> |Added(previous, before)| > 0 || isNew
      ensures Joined(world, net, Added(previous, before + [currentEntity]), log0, root0, replica0)
      ensures hierarchicalEntities == old(hierarchicalEntities) && isHierarchyEnabled == old(isHierarchyEnabled)
      decreases 0, 2
    {
      JoinStep(previous, before, currentEntity);
      ghost var added := Added(previous, before);
      if currentEntity in unmatched {
        remaining := RemoveFirst(unmatched, currentEntity);
        isNew := false;
        assert added + [] == added;
      } else {
        remaining := unmatched;
        isNew := true;
        RootSetsSnoc(SelfView(world, self, isHierarchyEnabled), added, Some(self), currentEntity);
        ConcatAssoc3(log0, RootSets(SelfView(world, self, isHierarchyEnabled), added, Some(self)), Told(SelfView(world, self, isHierarchyEnabled), currentEntity, Some(self)));
        SetRootForEntity(world, net, Some(self), currentEntity);
        assert self in added + [currentEntity] <==> self in added || currentEntity == self;
      }
    }

    /** What the second loop of `RebuildHierarchy` has done once it told each of `left` no root. */
    ghost predicate Left(world: World, net: Network, left: seq<EntityId>, log0: seq<Notification>, root0: Option<EntityId>, replica0: Option<nat>)
      reads this
    {
      && log == log0 + RootSets(SelfView(world, self, isHierarchyEnabled), left, None)
      && rootEntity == (if self in left then None else root0)
      && hierarchyRoot == (if self in left && net.isAuthority then None else replica0)
    }

    /**
     * One step of the second loop: `SetRootForEntity(nullptr, e)` while the list
     * is already rebuilt, so a rebuild it causes here finds nothing to change.
     */
    method TellLeaving(world: World, net: Network, ghost done: seq<EntityId>, e: EntityId,
                       ghost log0: seq<Notification>, ghost root0: Option<EntityId>, ghost replica0: Option<nat>)
      requires hierarchicalEntities == HierarchyList(SelfView(world, self, isHierarchyEnabled), maxLimit, self)
      requires Left(world, net, done, log0, root0, replica0)
      modifies this
      ensures Left(world, net, done + [e], log0, root0, replica0)
      ensures hierarchicalEntities == old(hierarchicalEntities) && isHierarchyEnabled == old(isHierarchyEnabled)
      decreases 1, 2
    {
      ghost var list := hierarchicalEntities;
      UnchangedListNotifiesNothing(SelfView(world, self, isHierarchyEnabled), self, list);
      RootSetsSnoc(SelfView(world, self, isHierarchyEnabled), done, None, e);
      ConcatAssoc3(log0, RootSets(SelfView(world, self, isHierarchyEnabled), done, None), Told(SelfView(world, self, isHierarchyEnabled), e, None));
      SetRootForEntity(world, net, None, e);
      if e == self {
        assert log == old(log) + Told(SelfView(world, self, isHierarchyEnabled), e, None) + [];
      }
      assert self in done + [e] <==> self in done || e == self;
    }

    /**
     * `SetRootForEntity`: tells the entity's hierarchy component, if it has one,
     * its new root. When that entity is this component's own, this component
     * itself takes the new root.
     */
    method SetRootForEntity(world: World, net: Network, root: Option<EntityId>, childEntity: EntityId)
      modifies this
      ensures childEntity != self ==>
                && log == old(log) + Told(SelfView(world, self, isHierarchyEnabled), childEntity, root)
                && hierarchicalEntities == old(hierarchicalEntities)
                && rootEntity == old(rootEntity) && hierarchyRoot == old(hierarchyRoot)
      ensures childEntity == self && root.Some? ==>
                && log == old(log) + Told(SelfView(world, self, isHierarchyEnabled), self, root)
                && hierarchicalEntities == old(hierarchicalEntities)
                && rootEntity == root
                && hierarchyRoot == (if net.isAuthority then ReplicatedRoot(net, root) else old(hierarchyRoot))
      ensures childEntity == self && root.None? ==>
                && hierarchicalEntities == HierarchyList(SelfView(world, self, isHierarchyEnabled), maxLimit, self)
                && log == old(log) + Told(SelfView(world, self, isHierarchyEnabled), self, None) + RebuildNotifications(SelfView(world, self, isHierarchyEnabled), self, old(hierarchicalEntities), hierarchicalEntities)
                && rootEntity == RebuiltRoot(self, old(hierarchicalEntities), hierarchicalEntities, None)
                && hierarchyRoot == RebuiltReplica(net, self, old(hierarchicalEntities), hierarchicalEntities, if net.isAuthority then None else old(hierarchyRoot))
      ensures isHierarchyEnabled == old(isHierarchyEnabled)
      decreases if root.None? then Pending(world, self, isHierarchyEnabled, maxLimit, hierarchicalEntities) else 0, if root.None? then 6 else 1
    {
      if HasHierarchyComponent(SelfView(world, self, isHierarchyEnabled), childEntity) {
        log := log + [RootSet(childEntity, root)];
      }
      if childEntity == self {
        SetTopLevelHierarchyRootEntity(world, net, root);
      }
    }

    /**
     * `SetTopLevelHierarchyRootEntity`: stores the new root; an authority also
     * replicates the root's network id; losing the root rebuilds this hierarchy.
     */
    method SetTopLevelHierarchyRootEntity(world: World, net: Network, hierarchyRootEntity: Option<EntityId>)
      modifies this
      ensures hierarchyRootEntity.Some? ==>
                && rootEntity == hierarchyRootEntity
                && hierarchyRoot == (if net.isAuthority then ReplicatedRoot(net, hierarchyRootEntity) else old(hierarchyRoot))
                && hierarchicalEntities == old(hierarchicalEntities) && log == old(log)
      ensures hierarchyRootEntity.None? ==>
                && hierarchicalEntities == HierarchyList(SelfView(world, self, isHierarchyEnabled), maxLimit, self)
                && log == old(log) + RebuildNotifications(SelfView(world, self, isHierarchyEnabled), self, old(hierarchicalEntities), hierarchicalEntities)
                && rootEntity == RebuiltRoot(self, old(hierarchicalEntities), hierarchicalEntities, None)
                && hierarchyRoot == RebuiltReplica(net, self, old(hierarchicalEntities), hierarchicalEntities, if net.isAuthority then None else old(hierarchyRoot))
      ensures isHierarchyEnabled == old(isHierarchyEnabled)
      decreases if hierarchyRootEntity.None? then Pending(world, self, isHierarchyEnabled, maxLimit, hierarchicalEntities) else 0, if hierarchyRootEntity.None? then 5 else 0
    {
      rootEntity := hierarchyRootEntity;
      if net.isAuthority {
        hierarchyRoot := ReplicatedRoot(net, hierarchyRootEntity);
      }
      if rootEntity.None? {
        RebuildHierarchy(world, net);
      }
    }

    /** `OnActivate`: enables the hierarchy with this entity in it. */
    method OnActivate()
      modifies this
      ensures isHierarchyEnabled && hierarchicalEntities == old(hierarchicalEntities) + [self]
      ensures rootEntity == old(rootEntity) && hierarchyRoot == old(hierarchyRoot) && log == old(log)
    {
      isHierarchyEnabled := true;
      hierarchicalEntities := hierarchicalEntities + [self];
    }

    /**
     * `OnDeactivate`: disables the hierarchy; a member asks its root to rebuild
     * (this component itself, when it is its own root), a root tells each of its
     * transform children that it has no root. The list is cleared and the root
     * reset either way. The transform bus never lists an entity among its own children.
     */
    method OnDeactivate(world: World, net: Network)
      requires self in world ==> self !in world[self].children
      modifies this
      ensures !isHierarchyEnabled && hierarchicalEntities == [] && rootEntity == None
      ensures hierarchyRoot == if old(rootEntity) == Some(self) then RebuiltReplica(net, self, old(hierarchicalEntities), [], old(hierarchyRoot)) else old(hierarchyRoot)
      ensures log == old(log) + DeactivateNotifications(world, self, old(rootEntity), old(hierarchicalEntities))
    {
      isHierarchyEnabled := false;
      if rootEntity == Some(self) {
        OwnEnabledDecidesList(world, maxLimit, self, false);
        RebuildHierarchy(world, net);
      } else if rootEntity.Some? {
        if HasRootComponent(world, rootEntity.value) {
          log := log + [RebuildRequested(rootEntity.value)];
        }
      } else {
        var allChildren := if self in world then world[self].children else [];
        ghost var before := log;
        for i := 0 to |allChildren|
          invariant !isHierarchyEnabled && rootEntity == old(rootEntity) && hierarchyRoot == old(hierarchyRoot)
          invariant log == before + RootSets(world, FoundOnly(world, allChildren[..i]), None)
        {
          var child := allChildren[i];
          ghost var done := FoundOnly(world, allChildren[..i]);
          assert allChildren[..i + 1] == allChildren[..i] + [child];
          FoundOnlySnoc(world, allChildren[..i], child);
          if child in world {
            assert child != self;
            RootSetsSnoc(world, done, None, child);
            SelfViewElsewhere(world, self, false, child, None);
            ghost var told := Told(world, child, None);
            SetRootForEntity(world, net, None, child);
            ConcatAssoc3(before, RootSets(world, done, None), told);
            assert FoundOnly(world, allChildren[..i + 1]) == done + [child];
          } else {
            assert FoundOnly(world, allChildren[..i + 1]) == done + [];
            assert done + [] == done;
          }
        }
        assert allChildren[..|allChildren|] == allChildren;
      }
      hierarchicalEntities := [];
      rootEntity := None;
    }
  }

  /** `FindComponent<NetworkHierarchyRootComponent>` finds one. */
  predicate HasRootComponent(world: World, e: EntityId)
  {
    e in world && exists i :: 0 <= i < |world[e].components| && world[e].components[i].HierarchyRoot?
  }

  /** The ids `FindEntity` finds. */
  function FoundOnly(world: World, ids: seq<EntityId>): seq<EntityId>
  {
    if ids == [] then []
    else FoundOnly(world, ids[..|ids| - 1]) + (if ids[|ids| - 1] in world then [ids[|ids| - 1]] else [])
  }

  lemma FoundOnlySnoc(world: World, ids: seq<EntityId>, e: EntityId)
    ensures FoundOnly(world, ids + [e]) == FoundOnly(world, ids) + (if e in world then [e] else [])
  {
    assert (ids + [e])[..|ids|] == ids;
  }

  /**
   * What `OnDeactivate` tells the world, given the root entity and the members
   * it had: being its own root, it rebuilds with its hierarchy disabled.
   */
  function DeactivateNotifications(world: World, self: EntityId, rootEntity: Option<EntityId>, members: seq<EntityId>): seq<Notification>
  {
    if rootEntity == Some(self) then
      RebuildNotifications(SelfView(world, self, false), self, members, [])
    else if rootEntity.Some? then
      (if HasRootComponent(world, rootEntity.value) then [RebuildRequested(rootEntity.value)] else [])
    else
      RootSets(world, FoundOnly(world, if self in world then world[self].children else []), None)
  }

  // ---------------------------------------------------------------------------
  // Properties of the breadth-first collection
  // ---------------------------------------------------------------------------

  /** `e` is a transform child of an entity listed before position `k`. */
  ghost predicate ChildOfEarlier(world: World, found: seq<EntityId>, k: nat)
    requires k < |found|
  {
    exists j :: 0 <= j < k && found[j] in world && found[k] in world[found[j]].children
  }

  /**
   * What holds of the list while it is collected: every entry is enabled, the
   * first is the root and each later one is a child of an earlier one; every
   * queued entity is the root (before anything was taken) or a child of a
   * listed entity.
   */
  ghost predicate CollectInvariant(world: World, root: EntityId, candidates: seq<Option<EntityId>>, found: seq<EntityId>)
  {
    && (forall k :: 0 <= k < |found| ==> HierarchyEnabled(world, found[k]))
    && (|found| > 0 ==> found[0] == root)
    && (found == [] ==> |candidates| <= 1)
    && (forall k :: 0 < k < |found| ==> ChildOfEarlier(world, found, k))
    && (forall i :: 0 <= i < |candidates| && candidates[i].Some? ==>
          (found == [] && candidates[i].value == root)
          || exists j :: 0 <= j < |found| && found[j] in world && candidates[i].value in world[found[j]].children)
  }

  /** Taking an enabled queued entity keeps the invariant, with its children queued behind the rest. */
  lemma GrowKeepsInvariant(world: World, root: EntityId, candidates: seq<Option<EntityId>>, found: seq<EntityId>)
    requires candidates != [] && candidates[0].Some? && HierarchyEnabled(world, candidates[0].value)
    requires CollectInvariant(world, root, candidates, found)
    ensures var e := candidates[0].value;
            CollectInvariant(world, root, candidates[1..] + FindEntities(world, world[e].children), found + [e])
  {
    var candidate := candidates[0];
    var grown := found + [candidate.value];
    forall k | 0 < k < |found| && ChildOfEarlier(world, found, k)
      ensures ChildOfEarlier(world, grown, k)
    {
      var j :| 0 <= j < k && found[j] in world && found[k] in world[found[j]].children;
      assert grown[j] == found[j] && grown[k] == found[k];
    }
    if found != [] {
      var j :| 0 <= j < |found| && found[j] in world && candidate.value in world[found[j]].children;
      assert grown[j] == found[j];
      assert ChildOfEarlier(world, grown, |found|);
    }
    var next := candidates[1..] + FindEntities(world, world[candidate.value].children);
    forall i | 0 <= i < |next| && next[i].Some?
      ensures exists j :: 0 <= j < |grown| && grown[j] in world && next[i].value in world[grown[j]].children
    {
      if i < |candidates| - 1 {
        assert next[i] == candidates[i + 1];
        assert found != [];
        var j :| 0 <= j < |found| && found[j] in world && candidates[i + 1].value in world[found[j]].children;
        assert grown[j] == found[j];
      } else {
        var n := i - (|candidates| - 1);
        assert next[i] == FindEntities(world, world[candidate.value].children)[n];
        assert grown[|found|] == candidate.value;
      }
    }
  }

  lemma {:induction false} CollectKeepsInvariant(world: World, limit: nat, root: EntityId, candidates: seq<Option<EntityId>>, found: seq<EntityId>)
    requires |found| < limit || found == []
    requires CollectInvariant(world, root, candidates, found)
    ensures CollectInvariant(world, root, [], Collect(world, limit, candidates, found))
    decreases limit - |found|, |candidates|
  {
    if candidates != [] {
      var candidate := candidates[0];
      if candidate.Some? && HierarchyEnabled(world, candidate.value) {
        var grown := found + [candidate.value];
        var next := candidates[1..] + FindEntities(world, world[candidate.value].children);
        GrowKeepsInvariant(world, root, candidates, found);
        if |grown| < limit {
          CollectKeepsInvariant(world, limit, root, next, grown);
        }
      } else {
        CollectKeepsInvariant(world, limit, root, candidates[1..], found);
      }
    }
  }

  /**
   * The rebuilt list holds only entities whose hierarchy is enabled; it starts
   * with the root, and every later entry is a transform child of an earlier one.
   */
  lemma {:induction false} HierarchyListMembers(world: World, limit: nat, root: EntityId)
    ensures var r := HierarchyList(world, limit, root);
            && (forall k :: 0 <= k < |r| ==> HierarchyEnabled(world, r[k]))
            && (|r| > 0 ==> r[0] == root)
            && (forall k :: 0 < k < |r| ==> ChildOfEarlier(world, r, k))
  {
    CollectKeepsInvariant(world, limit, root, [Some(root)], []);
  }

  /** The list only grows while it is collected. */
  lemma {:induction false} CollectExtends(world: World, limit: nat, candidates: seq<Option<EntityId>>, found: seq<EntityId>)
    requires |found| < limit || found == []
    ensures found <= Collect(world, limit, candidates, found)
    decreases limit - |found|, |candidates|
  {
    if candidates != [] {
      var candidate := candidates[0];
      if candidate.Some? && HierarchyEnabled(world, candidate.value) {
        var grown := found + [candidate.value];
        if |grown| < limit {
          CollectExtends(world, limit, candidates[1..] + FindEntities(world, world[candidate.value].children), grown);
        }
      } else {
        CollectExtends(world, limit, candidates[1..], found);
      }
    }
  }

  /** The list is empty exactly when the root's own hierarchy is not enabled. */
  lemma {:induction false} HierarchyListEmpty(world: World, limit: nat, root: EntityId)
    ensures HierarchyList(world, limit, root) == [] <==> !HierarchyEnabled(world, root)
  {
    var candidates := [Some(root)];
    assert candidates[0] == Some(root) && candidates[1..] == [];
    assert [] + [root] == [root];
    if HierarchyEnabled(world, root) {
      if 1 < limit {
        var next := candidates[1..] + FindEntities(world, world[root].children);
        assert HierarchyList(world, limit, root) == Collect(world, limit, next, [root]);
        CollectExtends(world, limit, next, [root]);
      } else {
        assert HierarchyList(world, limit, root) == [root];
      }
    } else {
      assert HierarchyList(world, limit, root) == Collect(world, limit, [], []);
    }
  }

  /** Collection stops at the limit: the list never holds more than `bg_hierarchyEntityMaxLimit` entities (one, for a limit of zero). */
  lemma {:induction false} CollectBound(world: World, limit: nat, candidates: seq<Option<EntityId>>, found: seq<EntityId>)
    requires |found| < limit || found == []
    ensures |Collect(world, limit, candidates, found)| <= if limit == 0 then 1 else limit
    decreases limit - |found|, |candidates|
  {
    if candidates != [] {
      var candidate := candidates[0];
      if candidate.Some? && HierarchyEnabled(world, candidate.value) {
        var grown := found + [candidate.value];
        if |grown| < limit {
          CollectBound(world, limit, candidates[1..] + FindEntities(world, world[candidate.value].children), grown);
        }
      } else {
        CollectBound(world, limit, candidates[1..], found);
      }
    }
  }

  lemma HierarchyListBound(world: World, limit: nat, root: EntityId)
    ensures |HierarchyList(world, limit, root)| <= if limit == 0 then 1 else limit
  {
    CollectBound(world, limit, [Some(root)], []);
  }

  // ---------------------------------------------------------------------------
  // Properties of the diff
  // ---------------------------------------------------------------------------

  /** The unmatched previous entities are the multiset difference previous minus current. */
  lemma {:induction false} UnmatchedIsDifference(previous: seq<EntityId>, current: seq<EntityId>)
    ensures multiset(Unmatched(previous, current)) == multiset(previous) - multiset(current)
    decreases |current|
  {
    if current != [] {
      var init := current[..|current| - 1];
      var x := current[|current| - 1];
      assert current == init + [x];
      UnmatchedIsDifference(previous, init);
      var before := Unmatched(previous, init);
      if x in before {
        RemoveFirstMultiset(before, x);
      } else {
        assert multiset(before)[x] == 0;
      }
      assert forall y :: multiset(Unmatched(previous, current))[y] == (multiset(previous) - multiset(current))[y];
    }
  }

  /** The added entities are the multiset difference current minus previous. */
  lemma {:induction false} AddedIsDifference(previous: seq<EntityId>, current: seq<EntityId>)
    ensures multiset(Added(previous, current)) == multiset(current) - multiset(previous)
    decreases |current|
  {
    if current != [] {
      var init := current[..|current| - 1];
      var x := current[|current| - 1];
      assert current == init + [x];
      AddedIsDifference(previous, init);
      UnmatchedIsDifference(previous, init);
      var before := Unmatched(previous, init);
      if x !in before {
        assert multiset(before)[x] == 0;
      }
      assert forall y :: multiset(Added(previous, current))[y] == (multiset(current) - multiset(previous))[y];
    }
  }

  /** The changed event fires exactly when the rebuilt list is not a reordering of the previous one. */
  lemma {:induction false} ChangedIffMembersDiffer(world: World, self: EntityId, previous: seq<EntityId>, current: seq<EntityId>)
    ensures HierarchyChanged(self) in RebuildNotifications(world, self, previous, current) <==> multiset(previous) != multiset(current)
  {
    AddedIsDifference(previous, current);
    UnmatchedIsDifference(previous, current);
    var added := Added(previous, current);
    var removed := Unmatched(previous, current);
    var notes := RebuildNotifications(world, self, previous, current);
    RootSetsHasNoSignal(world, added, Some(self));
    RootSetsHasNoSignal(world, removed, None);
    if multiset(previous) == multiset(current) {
      assert multiset(added) == multiset{};
      assert multiset(removed) == multiset{};
      assert |added| == 0 && |removed| == 0;
    } else {
      var y :| multiset(previous)[y] != multiset(current)[y];
      if multiset(previous)[y] < multiset(current)[y] {
        assert y in multiset(added);
      } else {
        assert y in multiset(removed);
      }
      assert notes[|notes| - 1] == HierarchyChanged(self);
    }
  }

  lemma {:induction false} RootSetsHasNoSignal(world: World, entities: seq<EntityId>, root: Option<EntityId>)
    ensures forall n :: n in RootSets(world, entities, root) ==> n.RootSet?
    decreases |entities|
  {
    if entities != [] {
      RootSetsHasNoSignal(world, entities[..|entities| - 1], root);
    }
  }

  /** An entity listed once before and once after the rebuild is neither told to join nor to leave. */
  lemma {:induction false} KeptEntitiesNotRenotified(previous: seq<EntityId>, current: seq<EntityId>, e: EntityId)
    requires multiset(previous)[e] == 1 && multiset(current)[e] == 1
    ensures e !in Added(previous, current) && e !in Unmatched(previous, current)
  {
    AddedIsDifference(previous, current);
    UnmatchedIsDifference(previous, current);
  }

  /** Every entity of a list whose entities all have a hierarchy component is told, in order. */
  lemma {:induction false} RootSetsTellsAll(world: World, entities: seq<EntityId>, root: Option<EntityId>)
    requires forall k :: 0 <= k < |entities| ==> HasHierarchyComponent(world, entities[k])
    ensures |RootSets(world, entities, root)| == |entities|
    ensures forall k :: 0 <= k < |entities| ==> RootSets(world, entities, root)[k] == RootSet(entities[k], root)
    decreases |entities|
  {
    if entities != [] {
      RootSetsTellsAll(world, entities[..|entities| - 1], root);
    }
  }

  /** Every added entity is one of the current entities. */
  lemma {:induction false} AddedAreCurrent(previous: seq<EntityId>, current: seq<EntityId>)
    ensures forall e :: e in Added(previous, current) ==> e in current
  {
    AddedIsDifference(previous, current);
    forall e | e in Added(previous, current)
      ensures e in current
    {
      assert e in multiset(Added(previous, current));
      assert e in multiset(current);
    }
  }

  /** Every newly added entity is given this root: all of them are enabled, so all have a hierarchy component. */
  lemma {:induction false} RebuildTellsEveryJoiner(world: World, limit: nat, self: EntityId, previous: seq<EntityId>)
    ensures var added := Added(previous, HierarchyList(world, limit, self));
            && |RootSets(world, added, Some(self))| == |added|
            && forall k :: 0 <= k < |added| ==> RootSets(world, added, Some(self))[k] == RootSet(added[k], Some(self))
  {
    var current := HierarchyList(world, limit, self);
    var added := Added(previous, current);
    HierarchyListMembers(world, limit, self);
    AddedAreCurrent(previous, current);
    forall k | 0 <= k < |added|
      ensures HasHierarchyComponent(world, added[k])
    {
      assert added[k] in current;
      var m :| 0 <= m < |current| && current[m] == added[k];
      assert HierarchyEnabled(world, current[m]);
    }
    RootSetsTellsAll(world, added, Some(self));
  }
}
