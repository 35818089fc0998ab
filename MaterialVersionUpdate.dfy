/**
 * Material version updates: the `rename` and `setValue` actions a material type
 * declares for each of its versions, their validation, and their application to
 * the raw (name, value) property list of a material asset.
 *
 * A property name is a string; the empty string is the empty name. The
 * properties layout is the sequence of property descriptors of the material
 * type, and the variant's `CastToType` is a function parameter `cast`.
 */
module MaterialVersionUpdate {
  import opened Wrappers
  import opened MaterialValue

  type Name = string

  const RenameOperation: Name := "rename"
  const SetValueOperation: Name := "setValue"
  /** The key of an action definition that holds the operation rather than an argument. */
  const OperationKey: string := "op"
  const FromArg: Name := "from"
  const ToArg: Name := "to"
  const NameArg: Name := "name"
  const ValueArg: Name := "value"

  // ---------------------------------------------------------------------------
  // Actions
  // ---------------------------------------------------------------------------

  /** `MaterialVersionUpdate::Action`: an operation name and its argument map. */
  datatype Action = Action(operation: Name, args: map<Name, Value>)

  /** `GetArg`: the argument under `key`, or the empty value when there is none. */
  function GetArg(a: Action, key: Name): (v: Value)
    ensures key in a.args ==> v == a.args[key]
    ensures key !in a.args ==> !IsValid(v)
  {
    if key in a.args then a.args[key] else Invalid
  }

  /** `AddArg`: `m_argsMap[key] = argument`. */
  function AddArg(a: Action, key: Name, v: Value): (r: Action)
    ensures r.operation == a.operation && r.args.Keys == a.args.Keys + {key}
    ensures r.args[key] == v && forall k :: k in a.args && k != key ==> r.args[k] == a.args[k]
  {
    a.(args := a.args[key := v])
  }

  /** `GetNumArgs`. */
  function NumArgs(a: Action): nat
  {
    |a.args|
  }

  /**
   * `GetArgAsName`: the string argument under `key` as a name. The source asserts
   * the argument is a string; any other value reads here as the empty name.
   */
  function GetArgAsName(a: Action, key: Name): Name
  {
    if GetArg(a, key).Str? then GetArg(a, key).s else ""
  }

  /** `Action::operator==`: two actions are equal when their argument maps are. */
  predicate SameArgs(a: Action, b: Action)
    ensures SameArgs(a, b) ==> NumArgs(a) == NumArgs(b) && forall k :: GetArg(a, k) == GetArg(b, k)
  {
    a.args == b.args
  }

  /**
   * The construction of an action from the entries of a definition, in iteration
   * order, continuing from the action built so far: the "op" entry sets the
   * operation and must be a string (otherwise construction stops where it is);
   * every other entry becomes an argument.
   */
  function ParseEntries(entries: seq<(string, Value)>, acc: Action): Action
    decreases |entries|
  {
    if entries == [] then acc
    else if entries[0].0 == OperationKey then
      if entries[0].1.Str? then ParseEntries(entries[1..], acc.(operation := entries[0].1.s)) else acc
    else ParseEntries(entries[1..], AddArg(acc, entries[0].0, entries[0].1))
  }

  /** The action `Action(const ActionDefinition&)` builds. */
  function FromDefinition(entries: seq<(string, Value)>): Action
  {
    ParseEntries(entries, Action("", map[]))
  }

  /** `Action(const ActionDefinition&)`, the entries given in the definition's iteration order. */
  method NewAction(entries: seq<(string, Value)>) returns (a: Action)
    ensures a == FromDefinition(entries)
  {
    a := Action("", map[]);
    var i := 0;
    while i < |entries|
      invariant 0 <= i <= |entries|
      invariant ParseEntries(entries[i..], a) == FromDefinition(entries)
    {
      assert entries[i..][1..] == entries[i + 1..];
      var (key, value) := entries[i];
      if key == OperationKey {
        if value.Str? {
          a := a.(operation := value.s);
        } else {
          return;
        }
      } else {
        a := AddArg(a, key, value);
      }
      i := i + 1;
    }
  }

  /** `Action(operation, args)`: the operation, then `AddArg` for each pair in order. */
  function ActionOf(operation: Name, args: seq<(Name, Value)>): Action
    decreases |args|
  {
    if args == [] then Action(operation, map[])
    else
      var last := args[|args| - 1];
      AddArg(ActionOf(operation, args[..|args| - 1]), last.0, last.1)
  }

  // ---------------------------------------------------------------------------
  // The properties layout and CastToExpectedValue
  // ---------------------------------------------------------------------------

  /** A property of the material type: its name and the type its value must have. */
  datatype PropertyDescriptor = PropertyDescriptor(name: Name, dataType: ValueType)

  /** `MaterialPropertiesLayout`: the material type's properties, by index. */
  type Layout = seq<PropertyDescriptor>

  function FindFrom(layout: Layout, name: Name, from: nat): (r: Option<nat>)
    requires from <= |layout|
    decreases |layout| - from
    ensures r.Some? ==> from <= r.value < |layout| && layout[r.value].name == name
    ensures r.Some? ==> forall j :: from <= j < r.value ==> layout[j].name != name
    ensures r.None? ==> forall j :: from <= j < |layout| ==> layout[j].name != name
  {
    if from == |layout| then None
    else if layout[from].name == name then Some(from)
    else FindFrom(layout, name, from + 1)
  }

  /** `FindPropertyIndex`: the index of the property with this name, if there is one. */
  function FindPropertyIndex(layout: Layout, name: Name): (r: Option<nat>)
    ensures r.Some? ==> r.value < |layout| && layout[r.value].name == name
    ensures r.None? <==> forall j :: 0 <= j < |layout| ==> layout[j].name != name
  {
    FindFrom(layout, name, 0)
  }

  /** The name is a property of the layout. */
  predicate InLayout(layout: Layout, name: Name)
  {
    FindPropertyIndex(layout, name).Some?
  }

  /**
   * `CastToExpectedValue`: the value cast to the type of the named property, or
   * `None` (an error) when the property is unknown or the cast does not produce
   * that type.
   */
  function CastToExpectedValue(name: Name, value: Value, layout: Layout, cast: (Value, ValueType) -> Value): (r: Option<Value>)
    ensures r.Some? ==> InLayout(layout, name)
    ensures r.Some? ==> TypeOf(r.value) == layout[FindPropertyIndex(layout, name).value].dataType
    ensures InLayout(layout, name) ==>
              var t := layout[FindPropertyIndex(layout, name).value].dataType;
              (r.Some? <==> TypeOf(cast(value, t)) == t) && (r.Some? ==> r.value == cast(value, t))
  {
    match FindPropertyIndex(layout, name)
    case None => None
    case Some(index) =>
      var t := layout[index].dataType;
      var v := cast(value, t);
      if TypeOf(v) == t then Some(v) else None
  }

  // ---------------------------------------------------------------------------
  // Validation of one action
  // ---------------------------------------------------------------------------

  /**
   * `Action::Validate(layout, onError)`: a rename needs exactly the string
   * arguments "from" and "to"; a setValue needs exactly a string "name" and a
   * valid "value", and, when both a layout and an error handler are given, a
   * value that casts to the named property's type. Any other operation,
   * including the empty one, is invalid.
   */
  predicate Validate(a: Action, layout: Option<Layout>, hasOnError: bool, cast: (Value, ValueType) -> Value)
    ensures Validate(a, layout, hasOnError, cast) ==>
              (a.operation == RenameOperation || a.operation == SetValueOperation) && NumArgs(a) == 2
  {
    if a.operation == RenameOperation then
      NumArgs(a) == 2 && GetArg(a, FromArg).Str? && GetArg(a, ToArg).Str?
    else if a.operation == SetValueOperation then
      if !(NumArgs(a) == 2 && GetArg(a, NameArg).Str? && IsValid(GetArg(a, ValueArg))) then false
      else if layout.Some? && hasOnError then
        CastToExpectedValue(GetArgAsName(a, NameArg), GetArg(a, ValueArg), layout.value, cast).Some?
      else true
    else false
  }

  /** Every action of the list validates. */
  predicate AllValid(actions: seq<Action>, layout: Option<Layout>, hasOnError: bool, cast: (Value, ValueType) -> Value)
  {
    forall i :: 0 <= i < |actions| ==> Validate(actions[i], layout, hasOnError, cast)
  }

  /** A version update: the version it brings a material to, and its actions. */
  datatype VersionUpdate = VersionUpdate(toVersion: uint32, actions: seq<Action>)

  /** `MaterialVersionUpdate::ValidateActions`: false at the first action that does not validate. */
  method ValidateActions(update: VersionUpdate, layout: Option<Layout>, hasOnError: bool, cast: (Value, ValueType) -> Value)
    returns (ok: bool)
    ensures ok <==> AllValid(update.actions, layout, hasOnError, cast)
  {
    var i := 0;
    while i < |update.actions|
      invariant 0 <= i <= |update.actions|
      invariant forall k :: 0 <= k < i ==> Validate(update.actions[k], layout, hasOnError, cast)
    {
      if !Validate(update.actions[i], layout, hasOnError, cast) {
        return false;
      }
      i := i + 1;
    }
    return true;
  }

  /**
   * The action `AddAction` appends: a valid setValue action has its value passed
   * through the resolver when there is one; any other action is appended as given.
   * `Validate()` is called without a layout and without an error handler.
   */
  function ResolvedAction(a: Action, resolver: Option<(Name, Value) -> Value>, cast: (Value, ValueType) -> Value): (r: Action)
    ensures r.operation == a.operation
    ensures forall k :: k != ValueArg ==> GetArg(r, k) == GetArg(a, k)
    ensures resolver.None? || a.operation != SetValueOperation ==> r == a
  {
    if Validate(a, None, false, cast) && resolver.Some? && a.operation == SetValueOperation then
      AddArg(a, ValueArg, resolver.value(GetArgAsName(a, NameArg), GetArg(a, ValueArg)))
    else a
  }

  /** `MaterialVersionUpdate::AddAction`. */
  function AddAction(update: VersionUpdate, a: Action, resolver: Option<(Name, Value) -> Value>, cast: (Value, ValueType) -> Value): (r: VersionUpdate)
    ensures r.toVersion == update.toVersion && |r.actions| == |update.actions| + 1
    ensures r.actions[..|update.actions|] == update.actions
    ensures r.actions[|update.actions|].operation == a.operation
    ensures r.actions[|update.actions|] == ResolvedAction(a, resolver, cast)
  {
    update.(actions := update.actions + [ResolvedAction(a, resolver, cast)])
  }

  // ---------------------------------------------------------------------------
  // Renames
  // ---------------------------------------------------------------------------

  /** The action is a rename whose "from" is this name. */
  predicate Matches(a: Action, name: Name)
  {
    a.operation == RenameOperation && name == GetArgAsName(a, FromArg)
  }

  /** The name after the actions, applied in list order. */
  function RenameThrough(actions: seq<Action>, name: Name): Name
    decreases |actions|
  {
    if actions == [] then name
    else
      var previous := RenameThrough(actions[..|actions| - 1], name);
      var a := actions[|actions| - 1];
      if Matches(a, previous) then GetArgAsName(a, ToArg) else previous
  }

  /** Some rename of the list matched the name as it stood when that rename was reached. */
  predicate AnyMatch(actions: seq<Action>, name: Name)
    decreases |actions|
  {
    actions != [] &&
    (AnyMatch(actions[..|actions| - 1], name) ||
     Matches(actions[|actions| - 1], RenameThrough(actions[..|actions| - 1], name)))
  }

  /** `MaterialVersionUpdate::ApplyPropertyRenames`: the renamed property id, and whether it changed. */
  method RenameProperty(update: VersionUpdate, propertyId: Name) returns (newId: Name, renamed: bool)
    ensures newId == RenameThrough(update.actions, propertyId)
    ensures renamed == AnyMatch(update.actions, propertyId)
  {
    var actions := update.actions;
    newId := propertyId;
    renamed := false;
    var i := 0;
    while i < |actions|
      invariant 0 <= i <= |actions|
      invariant newId == RenameThrough(actions[..i], propertyId)
      invariant renamed == AnyMatch(actions[..i], propertyId)
    {
      assert actions[..i + 1][..i] == actions[..i];
      var a := actions[i];
      if a.operation == RenameOperation {
        var from := GetArgAsName(a, FromArg);
        if newId == from {
          newId := GetArgAsName(a, ToArg);
          renamed := true;
        }
      }
      i := i + 1;
    }
    assert actions[..i] == actions;
  }

  // ---------------------------------------------------------------------------
  // Set values
  // ---------------------------------------------------------------------------

  /** An entry of a material asset's raw property list. */
  type Property = (Name, Value)

  /** Some entry of the list has this name. */
  predicate HasName(raw: seq<Property>, name: Name)
  {
    exists i :: 0 <= i < |raw| && raw[i].0 == name
  }

  /** Every entry with this name given the value; the others as they were. */
  function Overwrite(raw: seq<Property>, name: Name, v: Value): seq<Property>
  {
    seq(|raw|, i requires 0 <= i < |raw| => if raw[i].0 == name then (name, v) else raw[i])
  }

  /** One setValue on the list: overwrite every entry with the name, or append one when there is none. */
  function SetValue(raw: seq<Property>, name: Name, v: Value): seq<Property>
  {
    if HasName(raw, name) then Overwrite(raw, name, v) else raw + [(name, v)]
  }

  /** The overwrite-or-append loop of `ApplySetValues` for one action. */
  method OverwriteOrAppend(raw: seq<Property>, name: Name, v: Value) returns (r: seq<Property>)
    ensures r == SetValue(raw, name, v)
  {
    r := raw;
    var found := false;
    var k := 0;
    while k < |r|
      invariant 0 <= k <= |r| == |raw|
      invariant forall j :: 0 <= j < k ==> r[j] == (if raw[j].0 == name then (name, v) else raw[j])
      invariant forall j :: k <= j < |r| ==> r[j] == raw[j]
      invariant found <==> exists j :: 0 <= j < k && raw[j].0 == name
    {
      if r[k].0 == name {
        r := r[k := (r[k].0, v)];
        found := true;
      }
      k := k + 1;
    }
    if !found {
      r := r + [(name, v)];
    }
  }

  /** The action is a setValue. */
  predicate IsSetValue(a: Action)
  {
    a.operation == SetValueOperation
  }

  /** The cast of a setValue action's value to its property's type. */
  function SetCast(a: Action, layout: Layout, cast: (Value, ValueType) -> Value): Option<Value>
  {
    CastToExpectedValue(GetArgAsName(a, NameArg), GetArg(a, ValueArg), layout, cast)
  }

  /** Where the setValue loop stands: the list, whether a cast failed, whether a value was set. */
  datatype SetOutcome = SetOutcome(raw: seq<Property>, failed: bool, valueWasSet: bool)

  /** The setValue actions applied in order; the first failing cast stops the loop. */
  function ApplySets(actions: seq<Action>, raw: seq<Property>, layout: Layout, cast: (Value, ValueType) -> Value): SetOutcome
    decreases |actions|
  {
    if actions == [] then SetOutcome(raw, false, false)
    else
      var previous := ApplySets(actions[..|actions| - 1], raw, layout, cast);
      var a := actions[|actions| - 1];
      if previous.failed || !IsSetValue(a) then previous
      else
        match SetCast(a, layout, cast)
        case None => previous.(failed := true)
        case Some(v) => SetOutcome(SetValue(previous.raw, GetArgAsName(a, NameArg), v), false, true)
  }

  lemma {:induction false} ApplySetsFailedSticks(actions: seq<Action>, k: nat, raw: seq<Property>, layout: Layout, cast: (Value, ValueType) -> Value)
    requires k <= |actions|
    requires ApplySets(actions[..k], raw, layout, cast).failed
    ensures ApplySets(actions, raw, layout, cast) == ApplySets(actions[..k], raw, layout, cast)
    decreases |actions| - k
  {
    if k < |actions| {
      var p := actions[..|actions| - 1];
      assert p[..k] == actions[..k];
      ApplySetsFailedSticks(p, k, raw, layout, cast);
    } else {
      assert actions[..k] == actions;
    }
  }

  /**
   * `MaterialVersionUpdate::ApplySetValues`: the list after the setValue actions,
   * and whether one was set. At the first value that cannot be cast it returns
   * false, keeping the changes made before.
   */
  method ApplySetValues(update: VersionUpdate, raw: seq<Property>, layout: Layout, cast: (Value, ValueType) -> Value)
    returns (valueWasSet: bool, result: seq<Property>)
    ensures var o := ApplySets(update.actions, raw, layout, cast);
            result == o.raw && valueWasSet == (!o.failed && o.valueWasSet)
  {
    var actions := update.actions;
    result := raw;
    valueWasSet := false;
    var i := 0;
    while i < |actions|
      invariant 0 <= i <= |actions|
      invariant ApplySets(actions[..i], raw, layout, cast) == SetOutcome(result, false, valueWasSet)
    {
      assert actions[..i + 1][..i] == actions[..i];
      var a := actions[i];
      if a.operation != SetValueOperation {
        i := i + 1;
        continue;
      }
      var nameToSet := GetArgAsName(a, NameArg);
      var valueToSet := CastToExpectedValue(nameToSet, GetArg(a, ValueArg), layout, cast);
      if valueToSet.None? {
        ApplySetsFailedSticks(actions, i + 1, raw, layout, cast);
        return false, result;
      }
      result := OverwriteOrAppend(result, nameToSet, valueToSet.value);
      valueWasSet := true;
      i := i + 1;
    }
    assert actions[..i] == actions;
  }

  // ---------------------------------------------------------------------------
  // Properties of actions
  // ---------------------------------------------------------------------------

  /** `AddArg` then `GetArg` reads the new value under its key and nothing else changes. */
  lemma AddArgThenGetArg(a: Action, key: Name, v: Value, other: Name)
    ensures GetArg(AddArg(a, key, v), key) == v
    ensures other != key ==> GetArg(AddArg(a, key, v), other) == GetArg(a, other)
    ensures AddArg(a, key, v).operation == a.operation
    ensures NumArgs(AddArg(a, key, v)) == if key in a.args then NumArgs(a) else NumArgs(a) + 1
  {
    if key in a.args {
      assert AddArg(a, key, v).args.Keys == a.args.Keys;
    } else {
      assert AddArg(a, key, v).args.Keys == a.args.Keys + {key};
    }
  }

  /** A missing argument reads as the empty value, which never validates as present. */
  lemma MissingArgIsInvalid(a: Action, key: Name)
    requires key !in a.args
    ensures !IsValid(GetArg(a, key)) && GetArgAsName(a, key) == ""
  {
  }

  /** Action equality ignores the operation: a rename and a setValue with the same arguments are equal. */
  lemma EqualityIgnoresOperation(args: map<Name, Value>)
    ensures SameArgs(Action(RenameOperation, args), Action(SetValueOperation, args))
    ensures Action(RenameOperation, args) != Action(SetValueOperation, args)
  {
  }

  /** A definition entry "op" never becomes an argument, and every argument comes from an entry. */
  lemma {:induction false} ParseKeepsOpOutOfArgs(entries: seq<(string, Value)>, acc: Action)
    requires OperationKey !in acc.args
    ensures OperationKey !in ParseEntries(entries, acc).args
    ensures forall k :: k in ParseEntries(entries, acc).args ==>
              k in acc.args || exists i :: 0 <= i < |entries| && entries[i].0 == k
    decreases |entries|
  {
    if entries != [] && !(entries[0].0 == OperationKey && !entries[0].1.Str?) {
      var next := if entries[0].0 == OperationKey then acc.(operation := entries[0].1.s)
                  else AddArg(acc, entries[0].0, entries[0].1);
      ParseKeepsOpOutOfArgs(entries[1..], next);
      forall k | k in ParseEntries(entries, acc).args
        ensures k in acc.args || exists i :: 0 <= i < |entries| && entries[i].0 == k
      {
        if k !in acc.args && k != entries[0].0 {
          var i :| 0 <= i < |entries[1..]| && entries[1..][i].0 == k;
          assert entries[i + 1].0 == k;
        }
      }
    }
  }

  /** When every "op" entry is a string, every other entry becomes an argument. */
  lemma {:induction false} ParseCollectsEveryArg(entries: seq<(string, Value)>, acc: Action)
    requires forall i :: 0 <= i < |entries| && entries[i].0 == OperationKey ==> entries[i].1.Str?
    ensures acc.args.Keys <= ParseEntries(entries, acc).args.Keys
    ensures forall i :: 0 <= i < |entries| && entries[i].0 != OperationKey ==> entries[i].0 in ParseEntries(entries, acc).args
    decreases |entries|
  {
    if entries != [] {
      var next := AddArg(acc, entries[0].0, entries[0].1);
      if entries[0].0 == OperationKey {
        assert entries[0].1.Str?;
        next := acc.(operation := entries[0].1.s);
      }
      assert forall i :: 0 <= i < |entries[1..]| ==> entries[1..][i] == entries[i + 1];
      ParseCollectsEveryArg(entries[1..], next);
    }
  }

  /** Without an "op" entry the operation stays as it was: a definition without one yields the empty operation. */
  lemma {:induction false} ParseWithoutOp(entries: seq<(string, Value)>, acc: Action)
    requires forall i :: 0 <= i < |entries| ==> entries[i].0 != OperationKey
    ensures ParseEntries(entries, acc).operation == acc.operation
    decreases |entries|
  {
    if entries != [] {
      assert forall i :: 0 <= i < |entries[1..]| ==> entries[1..][i] == entries[i + 1];
      ParseWithoutOp(entries[1..], AddArg(acc, entries[0].0, entries[0].1));
    }
  }

  /** An "op" entry that is not a string ends construction: later entries are ignored. */
  lemma {:induction false} NonStringOpStops(entries: seq<(string, Value)>, j: nat, acc: Action)
    requires j < |entries| && entries[j].0 == OperationKey && !entries[j].1.Str?
    ensures ParseEntries(entries, acc) == ParseEntries(entries[..j], acc)
    decreases j
  {
    if j > 0 {
      if entries[0].0 == OperationKey && !entries[0].1.Str? {
        assert entries[..j][0] == entries[0];
      } else {
        var next := if entries[0].0 == OperationKey then acc.(operation := entries[0].1.s)
                    else AddArg(acc, entries[0].0, entries[0].1);
        assert entries[1..][j - 1] == entries[j];
        NonStringOpStops(entries[1..], j - 1, next);
        assert entries[..j][1..] == entries[1..][..j - 1];
      }
    }
  }

  /** The definition constructor: the empty operation without "op"; otherwise the arguments are all other entries. */
  lemma DefinitionConstructor(entries: seq<(string, Value)>)
    ensures OperationKey !in FromDefinition(entries).args
    ensures (forall i :: 0 <= i < |entries| ==> entries[i].0 != OperationKey) ==> FromDefinition(entries).operation == ""
    ensures (forall i :: 0 <= i < |entries| && entries[i].0 == OperationKey ==> entries[i].1.Str?) ==>
              forall k :: k in FromDefinition(entries).args <==> k != OperationKey && exists i :: 0 <= i < |entries| && entries[i].0 == k
  {
    ParseKeepsOpOutOfArgs(entries, Action("", map[]));
    if forall i :: 0 <= i < |entries| ==> entries[i].0 != OperationKey {
      ParseWithoutOp(entries, Action("", map[]));
    }
    if forall i :: 0 <= i < |entries| && entries[i].0 == OperationKey ==> entries[i].1.Str? {
      ParseCollectsEveryArg(entries, Action("", map[]));
    }
  }

  /** `Action(operation, args)` keeps the operation and has exactly the keys of the pairs. */
  lemma {:induction false} ActionOfKeys(operation: Name, args: seq<(Name, Value)>)
    ensures ActionOf(operation, args).operation == operation
    ensures forall k :: k in ActionOf(operation, args).args <==> exists i :: 0 <= i < |args| && args[i].0 == k
    decreases |args|
  {
    if args != [] {
      var p := args[..|args| - 1];
      ActionOfKeys(operation, p);
      assert forall i :: 0 <= i < |p| ==> p[i] == args[i];
    }
  }

  /** In `Action(operation, args)` the last pair with a key gives its argument. */
  lemma LastPairWins(operation: Name, args: seq<(Name, Value)>, key: Name, v: Value)
    ensures GetArg(ActionOf(operation, args + [(key, v)]), key) == v
  {
    assert (args + [(key, v)])[..|args|] == args;
  }

  lemma TwoKeys<V>(m: map<Name, V>, x: Name, y: Name)
    requires x != y
    ensures (|m| == 2 && x in m && y in m) <==> m.Keys == {x, y}
  {
    if |m| == 2 && x in m && y in m {
      var rest := m.Keys - {x, y};
      assert m.Keys == {x, y} + rest;
      assert {x, y} * rest == {};
      assert |rest| == 0;
    }
  }

  /**
   * The validation rules without a layout: a rename has exactly the string
   * arguments "from" and "to", a setValue exactly a string "name" and a valid
   * "value", and every other operation, the empty one included, is invalid.
   */
  lemma ValidationRules(a: Action, hasOnError: bool, cast: (Value, ValueType) -> Value)
    ensures Validate(a, None, hasOnError, cast) <==>
              || (a.operation == RenameOperation && a.args.Keys == {FromArg, ToArg}
                  && GetArg(a, FromArg).Str? && GetArg(a, ToArg).Str?)
              || (a.operation == SetValueOperation && a.args.Keys == {NameArg, ValueArg}
                  && GetArg(a, NameArg).Str? && IsValid(GetArg(a, ValueArg)))
    ensures a.operation == "" ==> !Validate(a, None, hasOnError, cast)
  {
    TwoKeys(a.args, FromArg, ToArg);
    TwoKeys(a.args, NameArg, ValueArg);
  }

  /**
   * With a layout and an error handler, a valid setValue names a property of the
   * layout and its value casts to that property's type.
   */
  lemma ValidSetValueFitsLayout(a: Action, layout: Layout, cast: (Value, ValueType) -> Value)
    requires Validate(a, Some(layout), true, cast) && a.operation == SetValueOperation
    ensures InLayout(layout, GetArgAsName(a, NameArg))
    ensures SetCast(a, layout, cast).Some?
  {
  }

  /** The layout check only adds to the rules: an action valid with a layout is valid without one. */
  lemma LayoutOnlyTightens(a: Action, layout: Layout, hasOnError: bool, cast: (Value, ValueType) -> Value)
    ensures Validate(a, Some(layout), hasOnError, cast) ==> Validate(a, None, hasOnError, cast)
    ensures !hasOnError ==> (Validate(a, Some(layout), hasOnError, cast) <==> Validate(a, None, hasOnError, cast))
  {
  }

  /** What `AddAction` asserts: resolving the value of a valid setValue to a valid value keeps it valid. */
  lemma ResolvingKeepsValid(a: Action, resolver: Option<(Name, Value) -> Value>, cast: (Value, ValueType) -> Value)
    requires Validate(a, None, false, cast)
    requires resolver.Some? ==> forall n, v :: IsValid(resolver.value(n, v))
    ensures Validate(ResolvedAction(a, resolver, cast), None, false, cast)
    ensures ResolvedAction(a, resolver, cast).operation == a.operation
    ensures SameArgs(ResolvedAction(a, resolver, cast), a) || (resolver.Some? && a.operation == SetValueOperation)
    ensures resolver.Some? && a.operation == SetValueOperation ==>
              ResolvedAction(a, resolver, cast) == AddArg(a, ValueArg, resolver.value(GetArgAsName(a, NameArg), GetArg(a, ValueArg)))
  {
    if resolver.Some? && a.operation == SetValueOperation {
      AddArgThenGetArg(a, ValueArg, resolver.value(GetArgAsName(a, NameArg), GetArg(a, ValueArg)), NameArg);
    }
  }

  // ---------------------------------------------------------------------------
  // Properties of renames
  // ---------------------------------------------------------------------------

  /** Renames chain: applying a list then another is applying their concatenation. */
  lemma {:induction false} RenameThroughAppend(a: seq<Action>, b: seq<Action>, name: Name)
    ensures RenameThrough(a + b, name) == RenameThrough(b, RenameThrough(a, name))
    ensures AnyMatch(a + b, name) == (AnyMatch(a, name) || AnyMatch(b, RenameThrough(a, name)))
    decreases |b|
  {
    if b == [] {
      assert a + b == a;
    } else {
      var p := b[..|b| - 1];
      assert (a + b)[..|a + b| - 1] == a + p;
      assert (a + b)[|a + b| - 1] == b[|b| - 1];
      RenameThroughAppend(a, p, name);
    }
  }

  /** Within one update, a rename a→b followed by b→c takes a to c. */
  lemma RenamesChain(x: Name, y: Name, z: Name)
    ensures var r1 := Action(RenameOperation, map[FromArg := Str(x), ToArg := Str(y)]);
            var r2 := Action(RenameOperation, map[FromArg := Str(y), ToArg := Str(z)]);
            RenameThrough([r1, r2], x) == z && AnyMatch([r1, r2], x)
  {
    var r1 := Action(RenameOperation, map[FromArg := Str(x), ToArg := Str(y)]);
    var r2 := Action(RenameOperation, map[FromArg := Str(y), ToArg := Str(z)]);
    assert [r1, r2][..1] == [r1];
    assert [r1][..0] == [];
    assert RenameThrough([r1], x) == y;
  }

  /** Actions other than renames are skipped. */
  lemma NonRenameSkipped(actions: seq<Action>, a: Action, name: Name)
    requires a.operation != RenameOperation
    ensures RenameThrough(actions + [a], name) == RenameThrough(actions, name)
    ensures AnyMatch(actions + [a], name) == AnyMatch(actions, name)
  {
    assert (actions + [a])[..|actions|] == actions;
  }

  /** The rename at position `i` matched the name as the actions before it left it. */
  predicate MatchedAt(actions: seq<Action>, name: Name, i: int)
  {
    0 <= i < |actions| && Matches(actions[i], RenameThrough(actions[..i], name))
  }

  /** The renamed flag is true exactly when some rename matched the name as it stood at that rename. */
  lemma {:induction false} AnyMatchIff(actions: seq<Action>, name: Name)
    ensures AnyMatch(actions, name) <==> exists i :: MatchedAt(actions, name, i)
    decreases |actions|
  {
    if actions != [] {
      var n := |actions| - 1;
      var p := actions[..n];
      AnyMatchIff(p, name);
      if AnyMatch(p, name) {
        var i :| MatchedAt(p, name, i);
        assert p[..i] == actions[..i] && p[i] == actions[i];
        assert MatchedAt(actions, name, i);
      } else if Matches(actions[n], RenameThrough(p, name)) {
        assert MatchedAt(actions, name, n);
      }
      if exists i :: MatchedAt(actions, name, i) {
        var i :| MatchedAt(actions, name, i);
        if i < n {
          assert p[..i] == actions[..i] && p[i] == actions[i];
          assert MatchedAt(p, name, i);
        }
      }
    }
  }

  /** A name no rename matched is left as it is. */
  lemma {:induction false} NoMatchKeepsName(actions: seq<Action>, name: Name)
    requires !AnyMatch(actions, name)
    ensures RenameThrough(actions, name) == name
    decreases |actions|
  {
    if actions != [] {
      NoMatchKeepsName(actions[..|actions| - 1], name);
    }
  }

  /** Across lists, `TrackEndpoints` composes the same way. */
  lemma {:induction false} TrackEndpointsAppend(names: set<Name>, a: seq<Action>, b: seq<Action>)
    ensures TrackEndpoints(names, a + b) == TrackEndpoints(TrackEndpoints(names, a), b)
    decreases |b|
  {
    if b == [] {
      assert a + b == a;
    } else {
      var p := b[..|b| - 1];
      assert (a + b)[..|a + b| - 1] == a + p;
      assert (a + b)[|a + b| - 1] == b[|b| - 1];
      TrackEndpointsAppend(names, a, p);
    }
  }

  /** A renamed name ends at a rename target that no later rename erased from the set. */
  lemma {:induction false} RenamedNameIsEndpoint(names: set<Name>, actions: seq<Action>, name: Name)
    requires AnyMatch(actions, name)
    ensures RenameThrough(actions, name) in TrackEndpoints(names, actions)
    decreases |actions|
  {
    var p := actions[..|actions| - 1];
    var a := actions[|actions| - 1];
    if !Matches(a, RenameThrough(p, name)) {
      RenamedNameIsEndpoint(names, p, name);
    }
  }

  // ---------------------------------------------------------------------------
  // Properties of set values
  // ---------------------------------------------------------------------------

  /**
   * One setValue: every entry with the name now holds the value, every other
   * entry is unchanged in place, and the list grows by one entry exactly when
   * the name was absent.
   */
  lemma SetValueEffect(raw: seq<Property>, name: Name, v: Value)
    ensures var r := SetValue(raw, name, v);
            && |r| == (if HasName(raw, name) then |raw| else |raw| + 1)
            && (forall i :: 0 <= i < |raw| ==> r[i] == (if raw[i].0 == name then (name, v) else raw[i]))
            && HasName(r, name)
            && (forall i :: 0 <= i < |r| && r[i].0 == name ==> r[i].1 == v)
  {
    var r := SetValue(raw, name, v);
    if !HasName(raw, name) {
      assert r[|raw|] == (name, v);
    } else {
      var i :| 0 <= i < |raw| && raw[i].0 == name;
      assert r[i].0 == name;
    }
  }

  /** Setting the same value twice is setting it once. */
  lemma SetValueIdempotent(raw: seq<Property>, name: Name, v: Value)
    ensures SetValue(SetValue(raw, name, v), name, v) == SetValue(raw, name, v)
  {
    SetValueEffect(raw, name, v);
    var r := SetValue(raw, name, v);
    assert Overwrite(r, name, v) == r;
  }

  /** The setValue loop fails exactly when some setValue action's value does not cast to its property. */
  lemma {:induction false} ApplySetsFailsIff(actions: seq<Action>, raw: seq<Property>, layout: Layout, cast: (Value, ValueType) -> Value)
    ensures ApplySets(actions, raw, layout, cast).failed <==>
              exists i :: 0 <= i < |actions| && IsSetValue(actions[i]) && SetCast(actions[i], layout, cast).None?
    decreases |actions|
  {
    if actions != [] {
      var p := actions[..|actions| - 1];
      ApplySetsFailsIff(p, raw, layout, cast);
      assert forall i :: 0 <= i < |p| ==> p[i] == actions[i];
    }
  }

  /** Without a failure, a value was set exactly when the update has a setValue action. */
  lemma {:induction false} ApplySetsReportsSet(actions: seq<Action>, raw: seq<Property>, layout: Layout, cast: (Value, ValueType) -> Value)
    ensures var o := ApplySets(actions, raw, layout, cast);
            !o.failed ==> (o.valueWasSet <==> exists i :: 0 <= i < |actions| && IsSetValue(actions[i]))
    decreases |actions|
  {
    if actions != [] {
      var p := actions[..|actions| - 1];
      ApplySetsReportsSet(p, raw, layout, cast);
      assert forall i :: 0 <= i < |p| ==> p[i] == actions[i];
    }
  }

  /** Actions validated against a layout never fail their casts. */
  lemma ValidatedSetsSucceed(actions: seq<Action>, raw: seq<Property>, layout: Layout, cast: (Value, ValueType) -> Value)
    requires AllValid(actions, Some(layout), true, cast)
    ensures !ApplySets(actions, raw, layout, cast).failed
  {
    ApplySetsFailsIff(actions, raw, layout, cast);
  }

  // ---------------------------------------------------------------------------
  // Lists of version updates
  // ---------------------------------------------------------------------------

  /** Versions strictly increase from above 0 and never pass the material type's version. */
  predicate VersionsInOrder(updates: seq<VersionUpdate>, typeVersion: uint32)
  {
    && (forall i :: 0 <= i < |updates| ==> 0 < updates[i].toVersion <= typeVersion)
    && (forall i, j :: 0 <= i < j < |updates| ==> updates[i].toVersion < updates[j].toVersion)
  }

  /** No rename of the actions applies to a current property name of the layout. */
  predicate KeepsLayoutNames(actions: seq<Action>, layout: Layout)
  {
    forall j :: 0 <= j < |layout| ==> !AnyMatch(actions, layout[j].name)
  }

  /** The rename endpoints: each rename erases its "from" from the set and adds its "to". */
  function TrackEndpoints(names: set<Name>, actions: seq<Action>): set<Name>
    decreases |actions|
  {
    if actions == [] then names
    else
      var previous := TrackEndpoints(names, actions[..|actions| - 1]);
      var a := actions[|actions| - 1];
      if a.operation == RenameOperation then (previous - {GetArgAsName(a, FromArg)}) + {GetArgAsName(a, ToArg)}
      else previous
  }

  /** The rename endpoints of a list of updates, collected in order from the empty set. */
  function RenameEndpoints(updates: seq<VersionUpdate>): set<Name>
    decreases |updates|
  {
    if updates == [] then {}
    else TrackEndpoints(RenameEndpoints(updates[..|updates| - 1]), updates[|updates| - 1].actions)
  }

  /** The actions of an update validate against the layout and rename none of its properties. */
  predicate ActionsAccepted(u: VersionUpdate, layout: Layout, cast: (Value, ValueType) -> Value)
  {
    AllValid(u.actions, Some(layout), true, cast) && KeepsLayoutNames(u.actions, layout)
  }

  /** What `ValidateUpdates` accepts. */
  predicate UpdatesValid(updates: seq<VersionUpdate>, typeVersion: uint32, layout: Layout, cast: (Value, ValueType) -> Value)
  {
    && (forall i :: 0 <= i < |updates| ==> ActionsAccepted(updates[i], layout, cast))
    && VersionsInOrder(updates, typeVersion)
    && (forall n :: n in RenameEndpoints(updates) ==> InLayout(layout, n))
  }

  /** All the actions of the updates, in order. */
  function Flatten(updates: seq<VersionUpdate>): seq<Action>
    decreases |updates|
  {
    if updates == [] then [] else Flatten(updates[..|updates| - 1]) + updates[|updates| - 1].actions
  }

  /** A name through every update's renames, in order. */
  function RenameAcross(updates: seq<VersionUpdate>, name: Name): Name
    decreases |updates|
  {
    if updates == [] then name
    else RenameThrough(updates[|updates| - 1].actions, RenameAcross(updates[..|updates| - 1], name))
  }

  /** Some update's renames changed the name. */
  predicate AnyMatchAcross(updates: seq<VersionUpdate>, name: Name)
    decreases |updates|
  {
    updates != [] &&
    (AnyMatchAcross(updates[..|updates| - 1], name) ||
     AnyMatch(updates[|updates| - 1].actions, RenameAcross(updates[..|updates| - 1], name)))
  }

  /** The rename in `ValidateUpdates`' layout check: the loop over the layout's property names. */
  method CheckLayoutNamesKept(update: VersionUpdate, layout: Layout) returns (ok: bool)
    ensures ok == KeepsLayoutNames(update.actions, layout)
  {
    var j := 0;
    while j < |layout|
      invariant 0 <= j <= |layout|
      invariant forall k :: 0 <= k < j ==> !AnyMatch(update.actions, layout[k].name)
    {
      var newName, renamed := RenameProperty(update, layout[j].name);
      if renamed {
        return false;
      }
      j := j + 1;
    }
    return true;
  }

  /** The endpoint loop of `ValidateUpdates` for one update. */
  method CollectEndpoints(names: set<Name>, update: VersionUpdate) returns (r: set<Name>)
    ensures r == TrackEndpoints(names, update.actions)
  {
    var actions := update.actions;
    r := names;
    var i := 0;
    while i < |actions|
      invariant 0 <= i <= |actions|
      invariant r == TrackEndpoints(names, actions[..i])
    {
      assert actions[..i + 1][..i] == actions[..i];
      var a := actions[i];
      if a.operation == RenameOperation {
        r := r - {GetArgAsName(a, FromArg)};
        r := r + {GetArgAsName(a, ToArg)};
      }
      i := i + 1;
    }
    assert actions[..i] == actions;
  }

  /** The final loop of `ValidateUpdates`: every collected name is a property of the layout. */
  method AllInLayout(names: set<Name>, layout: Layout) returns (ok: bool)
    ensures ok <==> forall n :: n in names ==> InLayout(layout, n)
  {
    var rest := names;
    while rest != {}
      invariant rest <= names
      invariant forall n :: n in names - rest ==> InLayout(layout, n)
      decreases |rest|
    {
      var n :| n in rest;
      if FindPropertyIndex(layout, n).None? {
        return false;
      }
      rest := rest - {n};
    }
    return true;
  }

  /**
   * The checks of one update in `ValidateUpdates`, in the source's order: its
   * actions, its version against the previous one and the material type's, and
   * the layout's names.
   */
  method CheckUpdate(u: VersionUpdate, prevVersion: int, typeVersion: uint32, layout: Layout, cast: (Value, ValueType) -> Value)
    returns (ok: bool)
    ensures ok <==> ActionsAccepted(u, layout, cast) && prevVersion < u.toVersion as int <= typeVersion as int
  {
    var actionsOk := ValidateActions(u, Some(layout), true, cast);
    if !actionsOk {
      return false;
    }
    if u.toVersion as int <= prevVersion {
      return false;
    }
    if u.toVersion > typeVersion {
      return false;
    }
    ok := CheckLayoutNamesKept(u, layout);
  }

  lemma VersionsInOrderSnoc(updates: seq<VersionUpdate>, i: nat, typeVersion: uint32)
    requires i < |updates| && VersionsInOrder(updates[..i], typeVersion)
    requires 0 < updates[i].toVersion <= typeVersion
    requires i > 0 ==> updates[i - 1].toVersion < updates[i].toVersion
    ensures VersionsInOrder(updates[..i + 1], typeVersion)
  {
    var p := updates[..i + 1];
    forall j, k | 0 <= j < k < |p|
      ensures p[j].toVersion < p[k].toVersion
    {
      if k == i && j < i - 1 {
        assert updates[..i][j] == p[j] && updates[..i][i - 1] == p[i - 1];
      }
    }
  }

  lemma RejectedUpdate(updates: seq<VersionUpdate>, i: nat, typeVersion: uint32, layout: Layout, cast: (Value, ValueType) -> Value)
    requires i < |updates|
    requires !(ActionsAccepted(updates[i], layout, cast) &&
               (if i == 0 then 0 else updates[i - 1].toVersion as int) < updates[i].toVersion as int <= typeVersion as int)
    ensures !UpdatesValid(updates, typeVersion, layout, cast)
  {
  }

  /** One accepted update extends what the validation loop has established for the updates before it. */
  lemma AcceptedStep(updates: seq<VersionUpdate>, i: nat, typeVersion: uint32, layout: Layout, cast: (Value, ValueType) -> Value)
    requires i < |updates|
    requires forall k :: 0 <= k < i ==> ActionsAccepted(updates[k], layout, cast)
    requires VersionsInOrder(updates[..i], typeVersion)
    requires ActionsAccepted(updates[i], layout, cast)
    requires (if i == 0 then 0 else updates[i - 1].toVersion as int) < updates[i].toVersion as int <= typeVersion as int
    ensures forall k :: 0 <= k < i + 1 ==> ActionsAccepted(updates[k], layout, cast)
    ensures VersionsInOrder(updates[..i + 1], typeVersion)
    ensures RenameEndpoints(updates[..i + 1]) == TrackEndpoints(RenameEndpoints(updates[..i]), updates[i].actions)
  {
    VersionsInOrderSnoc(updates, i, typeVersion);
    assert updates[..i + 1][..i] == updates[..i];
  }

  /**
   * The loop of `ValidateUpdates` over the updates: each update's checks, and
   * the rename endpoints collected so far.
   */
  method CheckEachUpdate(updates: seq<VersionUpdate>, typeVersion: uint32, layout: Layout, cast: (Value, ValueType) -> Value)
    returns (ok: bool, names: set<Name>)
    ensures ok ==> (forall k :: 0 <= k < |updates| ==> ActionsAccepted(updates[k], layout, cast))
    ensures ok ==> VersionsInOrder(updates, typeVersion) && names == RenameEndpoints(updates)
    ensures !ok ==> !UpdatesValid(updates, typeVersion, layout, cast)
  {
    var prevVersion: int := 0;
    names := {};
    var i := 0;
    while i < |updates|
      invariant 0 <= i <= |updates|
      invariant forall k :: 0 <= k < i ==> ActionsAccepted(updates[k], layout, cast)
      invariant VersionsInOrder(updates[..i], typeVersion)
      invariant prevVersion == if i == 0 then 0 else updates[i - 1].toVersion as int
      invariant names == RenameEndpoints(updates[..i])
    {
      var u := updates[i];
      var accepted := CheckUpdate(u, prevVersion, typeVersion, layout, cast);
      if !accepted {
        RejectedUpdate(updates, i, typeVersion, layout, cast);
        return false, names;
      }
      AcceptedStep(updates, i, typeVersion, layout, cast);
      names := CollectEndpoints(names, u);
      prevVersion := u.toVersion as int;
      i := i + 1;
    }
    assert updates[..i] == updates;
    return true, names;
  }

  /** A material asset: its raw property list, its material type version, and its type's layout and version. */
  class MaterialAsset {
    var rawPropertyValues: seq<Property>
    var materialTypeVersion: uint32
    const layout: Layout
    /** The version of the material type asset this material uses. */
    const typeVersion: uint32

    constructor (rawPropertyValues: seq<Property>, materialTypeVersion: uint32, layout: Layout, typeVersion: uint32)
      ensures this.rawPropertyValues == rawPropertyValues && this.materialTypeVersion == materialTypeVersion
      ensures this.layout == layout && this.typeVersion == typeVersion
    {
      this.rawPropertyValues := rawPropertyValues;
      this.materialTypeVersion := materialTypeVersion;
      this.layout := layout;
      this.typeVersion := typeVersion;
    }
  }

  /** One update's renames applied to every property name of the list. */
  function RenamedProperties(actions: seq<Action>, raw: seq<Property>): seq<Property>
  {
    seq(|raw|, k requires 0 <= k < |raw| => (RenameThrough(actions, raw[k].0), raw[k].1))
  }

  /** Some property name of the list was renamed by the actions. */
  predicate AnyPropertyRenamed(actions: seq<Action>, raw: seq<Property>)
  {
    exists k :: 0 <= k < |raw| && AnyMatch(actions, raw[k].0)
  }

  /** A list and whether a phase of `ApplyVersionUpdates` changed anything in it so far. */
  datatype Phase = Phase(raw: seq<Property>, changed: bool)

  /** The rename phase of `ApplyVersionUpdates`: each update's renames, in order, on every property. */
  function RenamePhase(updates: seq<VersionUpdate>, raw: seq<Property>): Phase
    decreases |updates|
  {
    if updates == [] then Phase(raw, false)
    else
      var previous := RenamePhase(updates[..|updates| - 1], raw);
      var actions := updates[|updates| - 1].actions;
      Phase(RenamedProperties(actions, previous.raw), previous.changed || AnyPropertyRenamed(actions, previous.raw))
  }

  /** The setValue phase: the updates newer than the asset's version, in order. */
  function SetPhase(updates: seq<VersionUpdate>, raw: seq<Property>, assetVersion: uint32, layout: Layout, cast: (Value, ValueType) -> Value): Phase
    decreases |updates|
  {
    if updates == [] then Phase(raw, false)
    else
      var previous := SetPhase(updates[..|updates| - 1], raw, assetVersion, layout, cast);
      var u := updates[|updates| - 1];
      if assetVersion >= u.toVersion then previous
      else
        var o := ApplySets(u.actions, previous.raw, layout, cast);
        Phase(o.raw, previous.changed || (!o.failed && o.valueWasSet))
  }

  /** The asset's property list, version, and the returned flag after `ApplyVersionUpdates`. */
  datatype ApplyOutcome = ApplyOutcome(raw: seq<Property>, version: uint32, changed: bool)

  /**
   * `ApplyVersionUpdates` on an asset's list and version: nothing happens when
   * the updates do not validate; otherwise every update's renames apply, the
   * setValue actions apply only when the asset's version is known, and the
   * version becomes the last update's.
   */
  function VersionUpdatesApplied(updates: seq<VersionUpdate>, raw: seq<Property>, version: uint32, typeVersion: uint32,
                                 layout: Layout, unspecified: uint32, cast: (Value, ValueType) -> Value): ApplyOutcome
  {
    if !UpdatesValid(updates, typeVersion, layout, cast) then ApplyOutcome(raw, version, false)
    else
      var renamed := RenamePhase(updates, raw);
      var setPhase := if version != unspecified then SetPhase(updates, renamed.raw, version, layout, cast) else Phase(renamed.raw, false);
      ApplyOutcome(setPhase.raw, if updates == [] then version else updates[|updates| - 1].toVersion, renamed.changed || setPhase.changed)
  }

  /** The renaming loop over an asset's properties for one update. */
  method RenameProperties(update: VersionUpdate, raw: seq<Property>) returns (r: seq<Property>, changed: bool)
    ensures r == RenamedProperties(update.actions, raw)
    ensures changed == AnyPropertyRenamed(update.actions, raw)
  {
    r := raw;
    changed := false;
    var k := 0;
    while k < |r|
      invariant 0 <= k <= |r| == |raw|
      invariant forall j :: 0 <= j < k ==> r[j] == (RenameThrough(update.actions, raw[j].0), raw[j].1)
      invariant forall j :: k <= j < |r| ==> r[j] == raw[j]
      invariant changed <==> exists j :: 0 <= j < k && AnyMatch(update.actions, raw[j].0)
    {
      var newName, renamed := RenameProperty(update, r[k].0);
      r := r[k := (newName, r[k].1)];
      changed := changed || renamed;
      k := k + 1;
    }
  }

  /** The first loop of `ApplyVersionUpdates`: every update's renames on every property, update by update. */
  method RenameAllProperties(updates: seq<VersionUpdate>, raw: seq<Property>) returns (p: Phase)
    ensures p == RenamePhase(updates, raw)
  {
    p := Phase(raw, false);
    var i := 0;
    while i < |updates|
      invariant 0 <= i <= |updates|
      invariant p == RenamePhase(updates[..i], raw)
    {
      assert updates[..i + 1][..i] == updates[..i];
      var r, c := RenameProperties(updates[i], p.raw);
      p := Phase(r, p.changed || c);
      i := i + 1;
    }
    assert updates[..i] == updates;
  }

  /** The second loop of `ApplyVersionUpdates`: the setValue actions of each update newer than the asset. */
  method SetAllValues(updates: seq<VersionUpdate>, raw: seq<Property>, assetVersion: uint32, layout: Layout,
                      cast: (Value, ValueType) -> Value) returns (p: Phase)
    ensures p == SetPhase(updates, raw, assetVersion, layout, cast)
  {
    p := Phase(raw, false);
    var i := 0;
    while i < |updates|
      invariant 0 <= i <= |updates|
      invariant p == SetPhase(updates[..i], raw, assetVersion, layout, cast)
    {
      assert updates[..i + 1][..i] == updates[..i];
      if assetVersion < updates[i].toVersion {
        var wasSet, r := ApplySetValues(updates[i], p.raw, layout, cast);
        p := Phase(r, p.changed || wasSet);
      }
      i := i + 1;
    }
    assert updates[..i] == updates;
  }

  /** `MaterialVersionUpdates`: the version updates of a material type, in order. */
  class MaterialVersionUpdates {
    var versionUpdates: seq<VersionUpdate>

    constructor ()
      ensures versionUpdates == []
    {
      versionUpdates := [];
    }

    /** `AddVersionUpdate`. */
    method AddVersionUpdate(update: VersionUpdate)
      modifies this
      ensures versionUpdates == old(versionUpdates) + [update]
    {
      versionUpdates := versionUpdates + [update];
    }

    /** `MaterialVersionUpdates::ApplyPropertyRenames`: the id through every update's renames. */
    method ApplyPropertyRenames(propertyId: Name) returns (newId: Name, renamed: bool)
      ensures newId == RenameAcross(versionUpdates, propertyId)
      ensures renamed == AnyMatchAcross(versionUpdates, propertyId)
    {
      var updates := versionUpdates;
      newId := propertyId;
      renamed := false;
      var i := 0;
      while i < |updates|
        invariant 0 <= i <= |updates|
        invariant newId == RenameAcross(updates[..i], propertyId)
        invariant renamed == AnyMatchAcross(updates[..i], propertyId)
      {
        assert updates[..i + 1][..i] == updates[..i];
        var r;
        newId, r := RenameProperty(updates[i], newId);
        renamed := renamed || r;
        i := i + 1;
      }
      assert updates[..i] == updates;
    }

    /** `MaterialVersionUpdates::ValidateUpdates`, with an error handler. */
    method ValidateUpdates(typeVersion: uint32, layout: Layout, cast: (Value, ValueType) -> Value) returns (ok: bool)
      ensures ok == UpdatesValid(versionUpdates, typeVersion, layout, cast)
    {
      var updates := versionUpdates;
      if |updates| == 0 {
        return true;
      }
      var names;
      ok, names := CheckEachUpdate(updates, typeVersion, layout, cast);
      if !ok {
        return false;
      }
      ok := AllInLayout(names, layout);
    }

    /**
     * `MaterialVersionUpdates::ApplyVersionUpdates`. `unspecified` is the
     * asset's `UnspecifiedMaterialTypeVersion`.
     */
    method ApplyVersionUpdates(asset: MaterialAsset, unspecified: uint32, cast: (Value, ValueType) -> Value)
      returns (changesWereApplied: bool)
      modifies asset
      ensures var o := VersionUpdatesApplied(versionUpdates, old(asset.rawPropertyValues), old(asset.materialTypeVersion),
                                             asset.typeVersion, asset.layout, unspecified, cast);
              asset.rawPropertyValues == o.raw && asset.materialTypeVersion == o.version && changesWereApplied == o.changed
    {
      var ok := ValidateUpdates(asset.typeVersion, asset.layout, cast);
      if !ok {
        return false;
      }
      var renamed := RenameAllProperties(versionUpdates, asset.rawPropertyValues);
      var setPhase := Phase(renamed.raw, false);
      if asset.materialTypeVersion != unspecified {
        setPhase := SetAllValues(versionUpdates, renamed.raw, asset.materialTypeVersion, asset.layout, cast);
      }
      asset.rawPropertyValues := setPhase.raw;
      changesWereApplied := renamed.changed || setPhase.changed;
      if |versionUpdates| > 0 {
        asset.materialTypeVersion := versionUpdates[|versionUpdates| - 1].toVersion;
      }
    }
  }

  // ---------------------------------------------------------------------------
  // Properties of lists of version updates
  // ---------------------------------------------------------------------------

  /** The empty list of updates is valid, whatever the layout and version. */
  lemma EmptyUpdatesValid(typeVersion: uint32, layout: Layout, cast: (Value, ValueType) -> Value)
    ensures UpdatesValid([], typeVersion, layout, cast)
  {
  }

  /** The renames of several updates are the renames of all their actions, in order. */
  lemma {:induction false} AcrossIsFlat(updates: seq<VersionUpdate>, name: Name)
    ensures RenameAcross(updates, name) == RenameThrough(Flatten(updates), name)
    ensures AnyMatchAcross(updates, name) == AnyMatch(Flatten(updates), name)
    ensures RenameEndpoints(updates) == TrackEndpoints({}, Flatten(updates))
    decreases |updates|
  {
    if updates != [] {
      var p := updates[..|updates| - 1];
      var last := updates[|updates| - 1].actions;
      AcrossIsFlat(p, name);
      RenameThroughAppend(Flatten(p), last, name);
      TrackEndpointsAppend({}, Flatten(p), last);
    } else {
      assert Flatten(updates) == [];
    }
  }

  /** Valid updates never rename a current property of the layout. */
  lemma {:induction false} LayoutNamesSurvive(updates: seq<VersionUpdate>, layout: Layout, j: nat)
    requires forall i :: 0 <= i < |updates| ==> KeepsLayoutNames(updates[i].actions, layout)
    requires j < |layout|
    ensures RenameAcross(updates, layout[j].name) == layout[j].name
    ensures !AnyMatchAcross(updates, layout[j].name)
    decreases |updates|
  {
    if updates != [] {
      var p := updates[..|updates| - 1];
      assert forall i :: 0 <= i < |p| ==> p[i] == updates[i];
      LayoutNamesSurvive(p, layout, j);
      NoMatchKeepsName(updates[|updates| - 1].actions, layout[j].name);
    }
  }

  /** With valid updates, every name the renames change ends at a property of the layout. */
  lemma RenamedNamesExistInLayout(updates: seq<VersionUpdate>, typeVersion: uint32, layout: Layout,
                                  cast: (Value, ValueType) -> Value, name: Name)
    requires UpdatesValid(updates, typeVersion, layout, cast)
    requires AnyMatchAcross(updates, name)
    ensures InLayout(layout, RenameAcross(updates, name))
  {
    AcrossIsFlat(updates, name);
    RenamedNameIsEndpoint({}, Flatten(updates), name);
  }

  /** The rename phase renames each property through every update and keeps its value and place. */
  lemma {:induction false} RenamePhaseRenamesEach(updates: seq<VersionUpdate>, raw: seq<Property>)
    ensures |RenamePhase(updates, raw).raw| == |raw|
    ensures forall k :: 0 <= k < |raw| ==>
              RenamePhase(updates, raw).raw[k] == (RenameAcross(updates, raw[k].0), raw[k].1)
    ensures RenamePhase(updates, raw).changed <==> exists k :: 0 <= k < |raw| && AnyMatchAcross(updates, raw[k].0)
    decreases |updates|
  {
    if updates != [] {
      RenamePhaseRenamesEach(updates[..|updates| - 1], raw);
    }
  }

  /** Updates no newer than the asset's version set nothing. */
  lemma {:induction false} OutdatedUpdatesSetNothing(updates: seq<VersionUpdate>, raw: seq<Property>, assetVersion: uint32,
                                                     layout: Layout, cast: (Value, ValueType) -> Value)
    requires forall i :: 0 <= i < |updates| ==> updates[i].toVersion <= assetVersion
    ensures SetPhase(updates, raw, assetVersion, layout, cast) == Phase(raw, false)
    decreases |updates|
  {
    if updates != [] {
      var p := updates[..|updates| - 1];
      assert forall i :: 0 <= i < |p| ==> p[i] == updates[i];
      OutdatedUpdatesSetNothing(p, raw, assetVersion, layout, cast);
    }
  }

  /**
   * Validation decides everything: invalid updates change nothing and report
   * no change; valid ones leave the asset at the last update's version, and
   * only renames apply when the asset's version is unknown or already at the
   * last update's version.
   */
  lemma ApplyVersionUpdatesOutcome(updates: seq<VersionUpdate>, raw: seq<Property>, version: uint32, typeVersion: uint32,
                                   layout: Layout, unspecified: uint32, cast: (Value, ValueType) -> Value)
    ensures var o := VersionUpdatesApplied(updates, raw, version, typeVersion, layout, unspecified, cast);
            && (!UpdatesValid(updates, typeVersion, layout, cast) ==> o == ApplyOutcome(raw, version, false))
            && (UpdatesValid(updates, typeVersion, layout, cast) && updates != [] ==> o.version == updates[|updates| - 1].toVersion)
            && (UpdatesValid(updates, typeVersion, layout, cast) && updates == [] ==> o == ApplyOutcome(raw, version, false))
            && (UpdatesValid(updates, typeVersion, layout, cast) &&
                (version == unspecified || (updates != [] && version >= updates[|updates| - 1].toVersion)) ==>
                  o.raw == RenamePhase(updates, raw).raw && o.changed == RenamePhase(updates, raw).changed)
  {
    if UpdatesValid(updates, typeVersion, layout, cast) && version != unspecified
       && updates != [] && version >= updates[|updates| - 1].toVersion {
      assert forall i :: 0 <= i < |updates| - 1 ==> updates[i].toVersion < updates[|updates| - 1].toVersion;
      OutdatedUpdatesSetNothing(updates, RenamePhase(updates, raw).raw, version, layout, cast);
    }
  }

  /** With valid updates, no setValue of the updates the asset takes fails its cast. */
  lemma {:induction false} ValidatedSetPhaseSetsAll(updates: seq<VersionUpdate>, raw: seq<Property>, assetVersion: uint32,
                                                    layout: Layout, cast: (Value, ValueType) -> Value)
    requires forall i :: 0 <= i < |updates| ==> AllValid(updates[i].actions, Some(layout), true, cast)
    ensures SetPhase(updates, raw, assetVersion, layout, cast).changed <==>
              exists i, k :: 0 <= i < |updates| && assetVersion < updates[i].toVersion &&
                             0 <= k < |updates[i].actions| && IsSetValue(updates[i].actions[k])
    decreases |updates|
  {
    if updates != [] {
      var p := updates[..|updates| - 1];
      var u := updates[|updates| - 1];
      assert forall i :: 0 <= i < |p| ==> p[i] == updates[i];
      ValidatedSetPhaseSetsAll(p, raw, assetVersion, layout, cast);
      if assetVersion < u.toVersion {
        var previous := SetPhase(p, raw, assetVersion, layout, cast);
        ValidatedSetsSucceed(u.actions, previous.raw, layout, cast);
        ApplySetsReportsSet(u.actions, previous.raw, layout, cast);
      }
    }
  }
}
