# A verified model of twelve small components of an O3DE fork

This project models, in Dafny, the sequential logic of twelve self-contained
components of the engine, and proves what their code promises:

- **Material version updates** (`MaterialVersionUpdate`).
  - The `rename` and `setValue` actions a material type declares per version, and their validation with and without a properties layout.
  - Validation of the whole update list: version order, layout names that must not be renamed, rename targets that must exist.
  - Their application to a material asset's raw (name, value) list: renames always, set-values only for versions newer than the asset's, then the version bump.
- **Material source inheritance** (`MaterialSourceData`).
  - The parent-material walk, with cycle detection and a same-material-type check.
  - The order of property layers, from the farthest ancestor to the material itself.
  - The classification of each source value as invalid, image reference or plain value.
  - The parent checks and inheritance of `CreateMaterialAsset`.
- **Material property JSON serializer** (`MaterialPropertyValueSerializer`): the dispatch from the kind of a JSON value to the variant alternative on load, and from the held alternative to the writer on store.
- **UV stream tangent bitmask** (`UvStreamTangentBitmask`): a 32-bit mask with a stream counter in its top bits and 4-bit tangent slots below.
- **Network hierarchy root component** (`NetworkHierarchyRoot`).
  - The bounded breadth-first collection of hierarchy members.
  - The rebuild diff that decides who is told of a new root, who loses it, and whether the change event fires.
  - Activation, deactivation and the top-level root, including the case where the component's own entity is told a root: it then stores that root, or rebuilds its own hierarchy when the root is null.
- **Script Canvas nodeable** (`Nodeable`): the execution-out table with no-op defaults, checked and unchecked access.
- **MysticQt manager** (`MysticQtManager`): the case-insensitive icon cache and the global initializer.
- **Motion matching query vector** (`QueryVector`): component writes and reads in a flat float buffer.
- **Select track** (`SelectTrack`): saving and loading a select key to and from XML attributes, key info, and the version converter.
- **Serialize context dumper** (`Dumper`): namespace extraction, the Namespace/Name split, type names and the generic-argument string.
- **Settings registry** (`SettingsRegistryMergeUtils`): the platform-specific lookup with its fallback, and the key constants.
- **Legacy texture converter** (`IsolateAndAssign`): `get_search_string` and `get_texture_type`.

Shared value types live in `Wrappers` (Option), `AzMath` (vectors and colour, with `real` components) and `MaterialValue` (the material property variant).

Where a component changes state in place, the model is a class whose methods carry `modifies` clauses and state the new state through a specification function. Lemmas about that function prove the promised properties. Pure code is modelled by functions and lemmas.

Collaborators are parameters:
- the JSON library's own conversions;
- file loading, path resolution, asset ids and the image lookup;
- the entity lookup;
- the settings registry;
- the material type's value cast.

## Model

| member | source | states |
|---|---|---|
| MaterialVersionUpdate.AddArgThenGetArg | Gems/Atom/RPI/Code/Source/RPI.Reflect/Material/MaterialVersionUpdate.cpp:431-449 | `AddArg` overwrites an existing key or adds one; `GetArg` then yields the new value, other keys and the operation are untouched, and the argument count grows only for a new key |
| MaterialVersionUpdate.GetArg | Gems/Atom/RPI/Code/Source/RPI.Reflect/Material/MaterialVersionUpdate.cpp:441-449 | the argument stored under the key, and an invalid value when the key is missing |
| MaterialVersionUpdate.AddArg | Gems/Atom/RPI/Code/Source/RPI.Reflect/Material/MaterialVersionUpdate.cpp:436-439 | the key set holds the new key too; the key maps to the new value, every other key and the operation are unchanged |
| MaterialVersionUpdate.MissingArgIsInvalid | Gems/Atom/RPI/Code/Source/RPI.Reflect/Material/MaterialVersionUpdate.cpp:441-456 | a missing argument reads as the invalid (empty) value, and as the empty name |
| MaterialVersionUpdate.EqualityIgnoresOperation | Gems/Atom/RPI/Code/Source/RPI.Reflect/Material/MaterialVersionUpdate.cpp:458-461 | action equality compares argument maps only: a rename and a setValue with the same arguments are equal |
| MaterialVersionUpdate.SameArgs | Gems/Atom/RPI/Code/Source/RPI.Reflect/Material/MaterialVersionUpdate.cpp:458-461 | equal actions have the same number of arguments and read the same value under every key |
| MaterialVersionUpdate.NewAction | Gems/Atom/RPI/Code/Source/RPI.Reflect/Material/MaterialVersionUpdate.cpp:385-412 | the definition constructor's loop builds exactly the action its specification function describes |
| MaterialVersionUpdate.ParseKeepsOpOutOfArgs | Gems/Atom/RPI/Code/Source/RPI.Reflect/Material/MaterialVersionUpdate.cpp:390-410 | the "op" entry never becomes an argument; every argument comes from an entry of the definition |
| MaterialVersionUpdate.ParseCollectsEveryArg | Gems/Atom/RPI/Code/Source/RPI.Reflect/Material/MaterialVersionUpdate.cpp:390-410 | when every "op" entry is a string, every other entry's key becomes an argument |
| MaterialVersionUpdate.ParseWithoutOp | Gems/Atom/RPI/Code/Source/RPI.Reflect/Material/MaterialVersionUpdate.cpp:390-410 | without an "op" entry the operation stays as it was |
| MaterialVersionUpdate.NonStringOpStops | Gems/Atom/RPI/Code/Source/RPI.Reflect/Material/MaterialVersionUpdate.cpp:394-402 | an "op" entry that is not a string ends the construction there; later entries are ignored |
| MaterialVersionUpdate.DefinitionConstructor | Gems/Atom/RPI/Code/Source/RPI.Reflect/Material/MaterialVersionUpdate.cpp:385-412 | the constructed action has no "op" argument, an empty operation without an "op" entry, and, when "op" is a string, exactly the other keys as arguments |
| MaterialVersionUpdate.ActionOfKeys | Gems/Atom/RPI/Code/Source/RPI.Reflect/Material/MaterialVersionUpdate.cpp:420-429 | the (operation, argument list) constructor keeps the operation and has exactly the listed keys |
| MaterialVersionUpdate.LastPairWins | Gems/Atom/RPI/Code/Source/RPI.Reflect/Material/MaterialVersionUpdate.cpp:420-429 | a key listed twice holds its last value |
| MaterialVersionUpdate.TwoKeys | Gems/Atom/RPI/Code/Source/RPI.Reflect/Material/MaterialVersionUpdate.cpp:78-105 | two arguments, both named, is the same as an argument map with exactly those two keys |
| MaterialVersionUpdate.ValidationRules | Gems/Atom/RPI/Code/Source/RPI.Reflect/Material/MaterialVersionUpdate.cpp:134-187 | without a layout an action is valid iff it is a rename with exactly string `from` and `to`, or a setValue with exactly a string `name` and a valid `value`; an empty operation is never valid |
| MaterialVersionUpdate.Validate | Gems/Atom/RPI/Code/Source/RPI.Reflect/Material/MaterialVersionUpdate.cpp:134-187 | only a rename or a setValue with exactly two arguments can be valid |
| MaterialVersionUpdate.ValidSetValueFitsLayout | Gems/Atom/RPI/Code/Source/RPI.Reflect/Material/MaterialVersionUpdate.cpp:160-177 | a setValue valid against a layout names a layout property, and its value casts to that property's type |
| MaterialVersionUpdate.LayoutOnlyTightens | Gems/Atom/RPI/Code/Source/RPI.Reflect/Material/MaterialVersionUpdate.cpp:160-177 | a layout only adds checks, and adds none when there is no error callback |
| MaterialVersionUpdate.FindFrom | Gems/Atom/RPI/Code/Source/RPI.Reflect/Material/MaterialVersionUpdate.cpp:213-218 | the first layout index at or after `from` with the name, or none when no later descriptor has it |
| MaterialVersionUpdate.FindPropertyIndex | Gems/Atom/RPI/Code/Source/RPI.Reflect/Material/MaterialVersionUpdate.cpp:213-218 | the index of a descriptor with the name, none iff no descriptor has it |
| MaterialVersionUpdate.CastToExpectedValue | Gems/Atom/RPI/Code/Source/RPI.Reflect/Material/MaterialVersionUpdate.cpp:211-244 | fails for a name outside the layout; otherwise succeeds iff the cast yields the property's type, and then returns the cast value |
| MaterialVersionUpdate.ValidateActions | Gems/Atom/RPI/Code/Source/RPI.Reflect/Material/MaterialVersionUpdate.cpp:120-132 | true iff every action of the update is valid |
| MaterialVersionUpdate.ResolvingKeepsValid | Gems/Atom/RPI/Code/Source/RPI.Reflect/Material/MaterialVersionUpdate.cpp:354-373 | `AddAction` keeps a valid action valid and its operation unchanged; with a resolver a setValue gets exactly the resolver's value for its name and value, and any other action keeps its arguments |
| MaterialVersionUpdate.ResolvedAction | Gems/Atom/RPI/Code/Source/RPI.Reflect/Material/MaterialVersionUpdate.cpp:354-370 | the operation and every argument but `value` are kept; without a resolver, or for an action other than setValue, the action is appended as given |
| MaterialVersionUpdate.AddAction | Gems/Atom/RPI/Code/Source/RPI.Reflect/Material/MaterialVersionUpdate.cpp:354-373 | the update keeps its version and its actions, and gains one action at the end: `ResolvedAction` of the given one, whose value and validity `ResolvingKeepsValid` states |
| MaterialVersionUpdate.RenameProperty | Gems/Atom/RPI/Code/Source/RPI.Reflect/Material/MaterialVersionUpdate.cpp:189-209 | the per-update rename loop returns the name after the update's renames in order, and whether any matched |
| MaterialVersionUpdate.RenameThroughAppend | Gems/Atom/RPI/Code/Source/RPI.Reflect/Material/MaterialVersionUpdate.cpp:189-209 | renaming through two action lists is renaming through the first, then the second |
| MaterialVersionUpdate.RenamesChain | Gems/Atom/RPI/Code/Source/RPI.Reflect/Material/MaterialVersionUpdate.cpp:189-209 | renames chain within one update: a→b then b→c renames a to c |
| MaterialVersionUpdate.NonRenameSkipped | Gems/Atom/RPI/Code/Source/RPI.Reflect/Material/MaterialVersionUpdate.cpp:194-196 | an action other than rename changes neither the name nor the match flag |
| MaterialVersionUpdate.AnyMatchIff | Gems/Atom/RPI/Code/Source/RPI.Reflect/Material/MaterialVersionUpdate.cpp:189-209 | the rename result is true iff some rename's `from` equals the name as renamed by the actions before it |
| MaterialVersionUpdate.NoMatchKeepsName | Gems/Atom/RPI/Code/Source/RPI.Reflect/Material/MaterialVersionUpdate.cpp:189-209 | when no rename matches, the name is unchanged |
| MaterialVersionUpdate.OverwriteOrAppend | Gems/Atom/RPI/Code/Source/RPI.Reflect/Material/MaterialVersionUpdate.cpp:270-288 | the set loop builds exactly `SetValue` of the list |
| MaterialVersionUpdate.SetValueEffect | Gems/Atom/RPI/Code/Source/RPI.Reflect/Material/MaterialVersionUpdate.cpp:270-288 | every pair with the name gets the value, other pairs are unchanged, and one pair is appended only when none had the name |
| MaterialVersionUpdate.SetValueIdempotent | Gems/Atom/RPI/Code/Source/RPI.Reflect/Material/MaterialVersionUpdate.cpp:270-288 | setting the same value twice is setting it once |
| MaterialVersionUpdate.ApplySetValues | Gems/Atom/RPI/Code/Source/RPI.Reflect/Material/MaterialVersionUpdate.cpp:246-294 | the per-update set loop returns its specification's list, and false at a failed cast or otherwise whether a value was set |
| MaterialVersionUpdate.ApplySetsFailedSticks | Gems/Atom/RPI/Code/Source/RPI.Reflect/Material/MaterialVersionUpdate.cpp:259-267 | once a cast fails, no later action changes anything |
| MaterialVersionUpdate.ApplySetsFailsIff | Gems/Atom/RPI/Code/Source/RPI.Reflect/Material/MaterialVersionUpdate.cpp:259-267 | the set loop fails iff some setValue's value cannot be cast |
| MaterialVersionUpdate.ApplySetsReportsSet | Gems/Atom/RPI/Code/Source/RPI.Reflect/Material/MaterialVersionUpdate.cpp:250-293 | without a failure, the result is true iff the update holds a setValue |
| MaterialVersionUpdate.ValidatedSetsSucceed | Gems/Atom/RPI/Code/Source/RPI.Reflect/Material/MaterialVersionUpdate.cpp:160-177 | actions valid against the layout never fail a cast |
| MaterialVersionUpdate.TrackEndpointsAppend | Gems/Atom/RPI/Code/Source/RPI.Reflect/Material/MaterialVersionUpdate.cpp:520-533 | tracking rename endpoints through two action lists is tracking through each in turn |
| MaterialVersionUpdate.RenamedNameIsEndpoint | Gems/Atom/RPI/Code/Source/RPI.Reflect/Material/MaterialVersionUpdate.cpp:520-533 | the final name of any renamed property is among the tracked endpoints |
| MaterialVersionUpdate.CheckLayoutNamesKept | Gems/Atom/RPI/Code/Source/RPI.Reflect/Material/MaterialVersionUpdate.cpp:503-517 | true iff no layout property name is renamed by the update |
| MaterialVersionUpdate.CollectEndpoints | Gems/Atom/RPI/Code/Source/RPI.Reflect/Material/MaterialVersionUpdate.cpp:520-533 | the endpoint set after the update: each rename erases its `from` and adds its `to` |
| MaterialVersionUpdate.AllInLayout | Gems/Atom/RPI/Code/Source/RPI.Reflect/Material/MaterialVersionUpdate.cpp:539-550 | true iff every endpoint names a layout property |
| MaterialVersionUpdate.CheckUpdate | Gems/Atom/RPI/Code/Source/RPI.Reflect/Material/MaterialVersionUpdate.cpp:475-517 | one update is accepted iff its actions pass and its version is above the previous one and at most the type version |
| MaterialVersionUpdate.VersionsInOrderSnoc | Gems/Atom/RPI/Code/Source/RPI.Reflect/Material/MaterialVersionUpdate.cpp:483-497 | an in-range version above the previous one extends an ordered list |
| MaterialVersionUpdate.RejectedUpdate | Gems/Atom/RPI/Code/Source/RPI.Reflect/Material/MaterialVersionUpdate.cpp:475-517 | a rejected update makes the whole list invalid |
| MaterialVersionUpdate.AcceptedStep | Gems/Atom/RPI/Code/Source/RPI.Reflect/Material/MaterialVersionUpdate.cpp:475-536 | an accepted update keeps every update so far accepted and their versions ordered, and adds its rename endpoints |
| MaterialVersionUpdate.CheckEachUpdate | Gems/Atom/RPI/Code/Source/RPI.Reflect/Material/MaterialVersionUpdate.cpp:475-536 | the validation loop: on success every update passed, the versions are ordered and the endpoints are collected; on failure the list is invalid |
| MaterialVersionUpdate.MaterialAsset.constructor | Gems/Atom/RPI/Code/Source/RPI.Reflect/Material/MaterialVersionUpdate.cpp:296-347 | the asset fields the updates read and write |
| MaterialVersionUpdate.RenameProperties | Gems/Atom/RPI/Code/Source/RPI.Reflect/Material/MaterialVersionUpdate.cpp:312-323 | renames every raw property through the update, and reports whether any was renamed |
| MaterialVersionUpdate.RenameAllProperties | Gems/Atom/RPI/Code/Source/RPI.Reflect/Material/MaterialVersionUpdate.cpp:312-323 | the first loop returns the properties and flag of the specified rename phase, update by update |
| MaterialVersionUpdate.SetAllValues | Gems/Atom/RPI/Code/Source/RPI.Reflect/Material/MaterialVersionUpdate.cpp:326-338 | the second loop returns the properties and flag of the specified set phase, skipping updates no newer than the asset |
| MaterialVersionUpdate.MaterialVersionUpdates.constructor | Gems/Atom/RPI/Code/Source/RPI.Reflect/Material/MaterialVersionUpdate.cpp:554-558 | an empty update list |
| MaterialVersionUpdate.MaterialVersionUpdates.AddVersionUpdate | Gems/Atom/RPI/Code/Source/RPI.Reflect/Material/MaterialVersionUpdate.cpp:554-558 | appends the update |
| MaterialVersionUpdate.MaterialVersionUpdates.ApplyPropertyRenames | Gems/Atom/RPI/Code/Source/RPI.Reflect/Material/MaterialVersionUpdate.cpp:375-383 | the name after every update's renames in order, and whether any matched |
| MaterialVersionUpdate.AcrossIsFlat | Gems/Atom/RPI/Code/Source/RPI.Reflect/Material/MaterialVersionUpdate.cpp:375-383 | renaming across updates is renaming through all their actions in one list; so are the tracked endpoints |
| MaterialVersionUpdate.MaterialVersionUpdates.ValidateUpdates | Gems/Atom/RPI/Code/Source/RPI.Reflect/Material/MaterialVersionUpdate.cpp:463-552 | true iff every update's actions pass, the versions are ordered, and every final rename target is in the layout |
| MaterialVersionUpdate.EmptyUpdatesValid | Gems/Atom/RPI/Code/Source/RPI.Reflect/Material/MaterialVersionUpdate.cpp:467-470 | an empty list is valid |
| MaterialVersionUpdate.LayoutNamesSurvive | Gems/Atom/RPI/Code/Source/RPI.Reflect/Material/MaterialVersionUpdate.cpp:503-517 | when no update renames a layout name, every layout name is left as it is |
| MaterialVersionUpdate.RenamedNamesExistInLayout | Gems/Atom/RPI/Code/Source/RPI.Reflect/Material/MaterialVersionUpdate.cpp:520-550 | after a validated list, every renamed name ends in the layout |
| MaterialVersionUpdate.MaterialVersionUpdates.ApplyVersionUpdates | Gems/Atom/RPI/Code/Source/RPI.Reflect/Material/MaterialVersionUpdate.cpp:296-347 | the asset's new raw values, version and result are those of the specification of validation, renames, set-values and version bump |
| MaterialVersionUpdate.RenamePhaseRenamesEach | Gems/Atom/RPI/Code/Source/RPI.Reflect/Material/MaterialVersionUpdate.cpp:312-323 | every raw property is renamed across all updates regardless of version; changed iff some name matched |
| MaterialVersionUpdate.OutdatedUpdatesSetNothing | Gems/Atom/RPI/Code/Source/RPI.Reflect/Material/MaterialVersionUpdate.cpp:326-338 | updates no newer than the asset's version set nothing |
| MaterialVersionUpdate.ValidatedSetPhaseSetsAll | Gems/Atom/RPI/Code/Source/RPI.Reflect/Material/MaterialVersionUpdate.cpp:326-338 | with validated actions, the set phase changes something iff an update newer than the asset holds a setValue |
| MaterialVersionUpdate.ApplyVersionUpdatesOutcome | Gems/Atom/RPI/Code/Source/RPI.Reflect/Material/MaterialVersionUpdate.cpp:296-347 | invalid updates change nothing and return false; valid non-empty updates leave the asset at the last update's version; with an unknown or newer asset version only renames apply |
| MaterialSourceData.Classify | Gems/Atom/RPI/Code/Source/RPI.Edit/Material/MaterialSourceData.cpp:324-353 | invalid iff the value is invalid; an image reference iff it is a string containing '.'; otherwise the value itself |
| MaterialSourceData.MaterialAssetCreator.constructor | Gems/Atom/RPI/Code/Source/RPI.Edit/Material/MaterialSourceData.cpp:83-84 | a creator without values or warnings |
| MaterialSourceData.MaterialAssetCreator.SetPropertyValue | Gems/Atom/RPI/Code/Source/RPI.Edit/Material/MaterialSourceData.cpp:347-353 | sets one property value, nothing else |
| MaterialSourceData.MaterialAssetCreator.ReportWarning | Gems/Atom/RPI/Code/Source/RPI.Edit/Material/MaterialSourceData.cpp:326-341 | records one warning, nothing else |
| MaterialSourceData.ApplyGroup | Gems/Atom/RPI/Code/Source/RPI.Edit/Material/MaterialSourceData.cpp:323-354 | the inner loop applies each property of a group in order |
| MaterialSourceData.ApplyPropertiesToAssetCreator | Gems/Atom/RPI/Code/Source/RPI.Edit/Material/MaterialSourceData.cpp:318-356 | the creator's new state is the layer of the source applied to the old one |
| MaterialSourceData.ApplyEntriesAppend | Gems/Atom/RPI/Code/Source/RPI.Edit/Material/MaterialSourceData.cpp:321-355 | applying two lists of properties is applying each in turn |
| MaterialSourceData.ApplyEntryEffect | Gems/Atom/RPI/Code/Source/RPI.Edit/Material/MaterialSourceData.cpp:324-353 | an invalid value only adds a warning; an image reference is set as a preloaded image asset even when missing, with a warning exactly then; any other value is set unchanged without a warning |
| MaterialSourceData.ApplyEntriesValue | Gems/Atom/RPI/Code/Source/RPI.Edit/Material/MaterialSourceData.cpp:318-356 | within one layer the last valid entry for a property wins; a property no entry sets keeps its value |
| MaterialSourceData.NearestParentWins | Gems/Atom/RPI/Code/Source/RPI.Edit/Material/MaterialSourceData.cpp:296-300 | parents apply from the farthest to the nearest, so a property holds the nearest parent's value |
| MaterialSourceData.WalkStep | Gems/Atom/RPI/Code/Source/RPI.Edit/Material/MaterialSourceData.cpp:249-281 | one step of the walk moves the parent from the remaining chain to the stack |
| MaterialSourceData.WalkParents | Gems/Atom/RPI/Code/Source/RPI.Edit/Material/MaterialSourceData.cpp:239-282 | the walk loop returns the stack and dependencies of the specified parent chain, or fails when it does |
| MaterialSourceData.DependencySet.constructor | Gems/Atom/RPI/Code/Source/RPI.Edit/Material/MaterialSourceData.cpp:200-204 | an empty caller-side dependency set |
| MaterialSourceData.CreateMaterialAssetFromSourceData | Gems/Atom/RPI/Code/Source/RPI.Edit/Material/MaterialSourceData.cpp:200-316 | the created state is that of the specification, and the caller's dependency set grows by the dependencies only on success |
| MaterialSourceData.CreatedValues | Gems/Atom/RPI/Code/Source/RPI.Edit/Material/MaterialSourceData.cpp:245-302 | in a created material a property holds its own value, else the nearest parent's, and is absent when no layer sets it |
| MaterialSourceData.EmptyMaterialTypeFails | Gems/Atom/RPI/Code/Source/RPI.Edit/Material/MaterialSourceData.cpp:86-90 | both creation paths fail on an empty material type |
| MaterialSourceData.CycleFails | Gems/Atom/RPI/Code/Source/RPI.Edit/Material/MaterialSourceData.cpp:251-255 | a parent path already among the dependencies fails the walk |
| MaterialSourceData.ChainMembers | Gems/Atom/RPI/Code/Source/RPI.Edit/Material/MaterialSourceData.cpp:239-281 | every parent was loaded from its path, shares the material type, and was visited once outside the initial dependencies; the dependencies are the initial ones plus the parents' paths |
| MaterialSourceData.ChainFollowsParents | Gems/Atom/RPI/Code/Source/RPI.Edit/Material/MaterialSourceData.cpp:247-281 | the walk starts at the resolved parent, resolves each next parent against the previous one's path, and ends at a material without a parent |
| MaterialSourceData.SetPropertyValues | Gems/Atom/RPI/Code/Source/RPI.Edit/Material/MaterialSourceData.cpp:152-175 | the inheritance loops set each pair in order |
| MaterialSourceData.CreateMaterialAsset | Gems/Atom/RPI/Code/Source/RPI.Edit/Material/MaterialSourceData.cpp:80-198 | returns the state its specification gives: the type check, the pre-bake type load, the parent checks, the inherited values, the own layer and the end verdict |
| MaterialSourceData.ParentTypeMismatchFails | Gems/Atom/RPI/Code/Source/RPI.Edit/Material/MaterialSourceData.cpp:136-145 | a parent asset of another material type fails the creation |
| MaterialSourceData.OwnValuesOverrideParent | Gems/Atom/RPI/Code/Source/RPI.Edit/Material/MaterialSourceData.cpp:148-187 | the material's own valid values override what it inherits |
| MaterialPropertyValueSerializer.Combine | Gems/Atom/RPI/Code/Source/RPI.Edit/Material/MaterialPropertyValueSerializer.cpp:124-131 | the combined processing is the worse of the two, Completed iff both are |
| MaterialPropertyValueSerializer.LoadDispatch | Gems/Atom/RPI/Code/Source/RPI.Edit/Material/MaterialPropertyValueSerializer.cpp:59-86 | bool, int before uint before float, arrays of 4, 3 and 2, string load as their alternatives, and the value and report are exactly those of that one attempt combined with Completed; every other kind is Unsupported and leaves the value |
| MaterialPropertyValueSerializer.LoadObjectFallbacks | Gems/Atom/RPI/Code/Source/RPI.Edit/Material/MaterialPropertyValueSerializer.cpp:87-114 | an object takes the value of the first of Color, Vector4, Vector3, Vector2 whose attempt completes, and the Vector2 attempt's value, reported Unsupported, when none does |
| MaterialPropertyValueSerializer.LoadObject | Gems/Atom/RPI/Code/Source/RPI.Edit/Material/MaterialPropertyValueSerializer.cpp:87-114 | the object is Unsupported iff none of the four attempts completes; otherwise it is reported as a completed, successful load |
| MaterialPropertyValueSerializer.Load | Gems/Atom/RPI/Code/Source/RPI.Edit/Material/MaterialPropertyValueSerializer.cpp:44-131 | "Successfully" iff the combined processing is Completed; a non-object value of no supported kind is Unsupported and leaves the value as it was |
| MaterialPropertyValueSerializer.LoadedTypesAreStorable | Gems/Atom/RPI/Code/Source/RPI.Edit/Material/MaterialPropertyValueSerializer.cpp:44-193 | every alternative a load produces has a writer in `Store` |
| MaterialPropertyValueSerializer.Store | Gems/Atom/RPI/Code/Source/RPI.Edit/Material/MaterialPropertyValueSerializer.cpp:134-193 | a storable alternative goes to its own writer and takes its output and processing; any other leaves the output and reports success; "Successfully" iff Completed |
| MaterialPropertyValueSerializer.StorableTypesComplement | Gems/Atom/RPI/Code/Source/RPI.Edit/Material/MaterialPropertyValueSerializer.cpp:149-184 | the storable alternatives are all but empty, image asset and image instance |
| UvStreamTangentBitmask.UvStreamTangentBitmask.constructor | Gems/Atom/RPI/Code/Source/RPI.Public/Model/UvStreamTangentBitmask.cpp:13 | a zero mask |
| UvStreamTangentBitmask.UvStreamTangentBitmask.FullTangentBitmask | Gems/Atom/RPI/Code/Source/RPI.Public/Model/UvStreamTangentBitmask.cpp:20-23 | the whole mask, counter and slots together, which fits 32 bits |
| UvStreamTangentBitmask.UvStreamTangentBitmask.UvStreamCount | Gems/Atom/RPI/Code/Source/RPI.Public/Model/UvStreamTangentBitmask.cpp:25-28 | the count is the top `BitsForUvIndex` bits, so it fits them |
| UvStreamTangentBitmask.UvStreamTangentBitmask.TangentAtUv | Gems/Atom/RPI/Code/Source/RPI.Public/Model/UvStreamTangentBitmask.cpp:30-33 | the 4-bit field of the slot |
| UvStreamTangentBitmask.ClampTangent | Gems/Atom/RPI/Code/Source/RPI.Public/Model/UvStreamTangentBitmask.cpp:44-51 | an index above `UnassignedTangent` is stored as `UnassignedTangent` |
| UvStreamTangentBitmask.UvStreamTangentBitmask.ApplyTangent | Gems/Atom/RPI/Code/Source/RPI.Public/Model/UvStreamTangentBitmask.cpp:35-64 | the new mask is the specified applied mask, still 32 bits |
| UvStreamTangentBitmask.ApplyAtCapacity | Gems/Atom/RPI/Code/Source/RPI.Public/Model/UvStreamTangentBitmask.cpp:35-42 | with every slot taken the mask is unchanged |
| UvStreamTangentBitmask.ApplyDoesNotWrap | Gems/Atom/RPI/Code/Source/RPI.Public/Model/UvStreamTangentBitmask.cpp:53-63 | below capacity the counter increment never wraps past 32 bits |
| UvStreamTangentBitmask.ApplyCountsUp | Gems/Atom/RPI/Code/Source/RPI.Public/Model/UvStreamTangentBitmask.cpp:53-63 | below capacity the count grows by exactly one |
| UvStreamTangentBitmask.ApplyWritesSlot | Gems/Atom/RPI/Code/Source/RPI.Public/Model/UvStreamTangentBitmask.cpp:30-63 | the slot at the old count then reads the (clamped) tangent index |
| UvStreamTangentBitmask.ApplyKeepsOtherSlots | Gems/Atom/RPI/Code/Source/RPI.Public/Model/UvStreamTangentBitmask.cpp:53-63 | every other slot keeps its field |
| UvStreamTangentBitmask.UvStreamTangentBitmask.Reset | Gems/Atom/RPI/Code/Source/RPI.Public/Model/UvStreamTangentBitmask.cpp:66-69 | the mask is zero |
| UvStreamTangentBitmask.ResetReadsZero | Gems/Atom/RPI/Code/Source/RPI.Public/Model/UvStreamTangentBitmask.cpp:66-69 | after a reset the count and every slot read zero |
| UvStreamTangentBitmask.WriteSetsField | Gems/Atom/RPI/Code/Source/RPI.Public/Model/UvStreamTangentBitmask.cpp:55-57 | clearing a field and or-ing a value into it makes the field read that value |
| UvStreamTangentBitmask.WriteKeepsOtherField | Gems/Atom/RPI/Code/Source/RPI.Public/Model/UvStreamTangentBitmask.cpp:55-57 | and leaves every other field as it was |
| NetworkHierarchyRoot.FirstHierarchyComponentIsFirst | Gems/Multiplayer/Code/Source/Components/NetworkHierarchyRootComponent.cpp:178-199 | the component found is the first child or root component in component order, and none exists when none is found |
| NetworkHierarchyRoot.GetHierarchyComponents | Gems/Multiplayer/Code/Source/Components/NetworkHierarchyRootComponent.cpp:178-199 | at most one result is set: the first hierarchy component, as child or as root by its kind |
| NetworkHierarchyRoot.FindEntities | Gems/Multiplayer/Code/Source/Components/NetworkHierarchyRootComponent.cpp:278-288 | each child id is looked up; an unknown id gives null |
| NetworkHierarchyRoot.NetworkHierarchyRootComponent.constructor | Gems/Multiplayer/Code/Source/Components/NetworkHierarchyRootComponent.cpp:64-72 | a disabled component without members or root |
| NetworkHierarchyRoot.NetworkHierarchyRootComponent.GetHierarchicalRoot | Gems/Multiplayer/Code/Source/Components/NetworkHierarchyRootComponent.cpp:144-152 | the stored root if set, else the own entity |
| NetworkHierarchyRoot.NetworkHierarchyRootComponent.IsHierarchicalRoot | Gems/Multiplayer/Code/Source/Components/NetworkHierarchyRootComponent.cpp:129-132 | true iff the replicated root is invalid |
| NetworkHierarchyRoot.NetworkHierarchyRootComponent.IsHierarchicalChild | Gems/Multiplayer/Code/Source/Components/NetworkHierarchyRootComponent.cpp:134-137 | true iff the replicated root is valid |
| NetworkHierarchyRoot.NetworkHierarchyRootComponent.InternalBuildHierarchyList | Gems/Multiplayer/Code/Source/Components/NetworkHierarchyRootComponent.cpp:271-308 | the breadth-first loop yields exactly the specified bounded member list, in which this component's own entity counts as enabled exactly when this component is |
| NetworkHierarchyRoot.QueueChildren | Gems/Multiplayer/Code/Source/Components/NetworkHierarchyRootComponent.cpp:302-306 | the queue gains each child id looked up in order, an unknown id as null |
| NetworkHierarchyRoot.HierarchyListMembers | Gems/Multiplayer/Code/Source/Components/NetworkHierarchyRootComponent.cpp:278-306 | every member is enabled, the root comes first, and every other member is a child of an earlier one |
| NetworkHierarchyRoot.GrowKeepsInvariant | Gems/Multiplayer/Code/Source/Components/NetworkHierarchyRootComponent.cpp:290-306 | taking an enabled queued entity and queueing its children keeps every listed entity enabled and every queued one a child of a listed entity |
| NetworkHierarchyRoot.HierarchyListEmpty | Gems/Multiplayer/Code/Source/Components/NetworkHierarchyRootComponent.cpp:290-298 | the list is empty iff the root itself is not enabled |
| NetworkHierarchyRoot.HierarchyListBound | Gems/Multiplayer/Code/Source/Components/NetworkHierarchyRootComponent.cpp:20 | the list never exceeds the entity limit (one entity for a zero limit) |
| NetworkHierarchyRoot.CollectBound | Gems/Multiplayer/Code/Source/Components/NetworkHierarchyRootComponent.cpp:290-298 | collection stops once the limit is reached |
| NetworkHierarchyRoot.CollectExtends | Gems/Multiplayer/Code/Source/Components/NetworkHierarchyRootComponent.cpp:290-306 | collection only appends |
| NetworkHierarchyRoot.OwnEnabledDecidesList | Gems/Multiplayer/Code/Source/Components/NetworkHierarchyRootComponent.cpp:290-298 | the list under the own entity is empty iff this component is disabled, and starts with the own entity otherwise |
| NetworkHierarchyRoot.NetworkHierarchyRootComponent.RebuildHierarchy | Gems/Multiplayer/Code/Source/Components/NetworkHierarchyRootComponent.cpp:226-269 | the new member list; the notifications of the specified rebuild diff; the own root and replicated root as the rebuild's notifications to the own entity leave them; the enabled flag unchanged |
| NetworkHierarchyRoot.RebuildSteps | Gems/Multiplayer/Code/Source/Components/NetworkHierarchyRootComponent.cpp:226-269 | the two loops and the final signal together give the specified notifications and roots of a rebuild |
| NetworkHierarchyRoot.NetworkHierarchyRootComponent.NotifyJoined | Gems/Multiplayer/Code/Source/Components/NetworkHierarchyRootComponent.cpp:228-247 | every new member is told this root, the own entity included, which then takes this root; the remaining previous members and the change flag are returned |
| NetworkHierarchyRoot.NetworkHierarchyRootComponent.JoinOne | Gems/Multiplayer/Code/Source/Components/NetworkHierarchyRootComponent.cpp:236-245 | one step of the first loop: a current entity erases its first unmatched previous occurrence, or else is new and is told this root; the loop's state is kept |
| NetworkHierarchyRoot.NetworkHierarchyRootComponent.NotifyLeft | Gems/Multiplayer/Code/Source/Components/NetworkHierarchyRootComponent.cpp:249-258 | every member that dropped out is told no root, the own entity included, which then drops its root |
| NetworkHierarchyRoot.NetworkHierarchyRootComponent.TellLeaving | Gems/Multiplayer/Code/Source/Components/NetworkHierarchyRootComponent.cpp:249-258 | one step of the second loop: a dropped entity is told no root; when it is the own entity, the rebuild this causes finds the list unchanged |
| NetworkHierarchyRoot.UnmatchedIsDifference | Gems/Multiplayer/Code/Source/Components/NetworkHierarchyRootComponent.cpp:228-247 | the members that dropped out are the previous list minus the current one |
| NetworkHierarchyRoot.AddedIsDifference | Gems/Multiplayer/Code/Source/Components/NetworkHierarchyRootComponent.cpp:228-247 | the new members are the current list minus the previous one |
| NetworkHierarchyRoot.JoinStep | Gems/Multiplayer/Code/Source/Components/NetworkHierarchyRootComponent.cpp:228-247 | one step of the first loop: a current entity with an unmatched previous occurrence erases the first one and adds nothing; otherwise the unmatched entities stay and the entity is added |
| NetworkHierarchyRoot.AddedAreCurrent | Gems/Multiplayer/Code/Source/Components/NetworkHierarchyRootComponent.cpp:236-245 | every new member is in the current list |
| NetworkHierarchyRoot.KeptEntitiesNotRenotified | Gems/Multiplayer/Code/Source/Components/NetworkHierarchyRootComponent.cpp:228-258 | an entity present once in both lists is neither added nor dropped |
| NetworkHierarchyRoot.MatchAgainstItself | Gems/Multiplayer/Code/Source/Components/NetworkHierarchyRootComponent.cpp:228-258 | matching a list against a prefix of itself leaves the rest unmatched and adds nothing |
| NetworkHierarchyRoot.UnchangedListNotifiesNothing | Gems/Multiplayer/Code/Source/Components/NetworkHierarchyRootComponent.cpp:226-269 | a rebuild that finds the list unchanged tells no one and signals nothing |
| NetworkHierarchyRoot.ChangedIffMembersDiffer | Gems/Multiplayer/Code/Source/Components/NetworkHierarchyRootComponent.cpp:235-268 | the change event fires iff the member lists differ as multisets |
| NetworkHierarchyRoot.RootSetsTellsAll | Gems/Multiplayer/Code/Source/Components/NetworkHierarchyRootComponent.cpp:310-322 | each entity with a hierarchy component is told the root, in order |
| NetworkHierarchyRoot.RootSetsHasNoSignal | Gems/Multiplayer/Code/Source/Components/NetworkHierarchyRootComponent.cpp:310-322 | setting roots never fires the change event |
| NetworkHierarchyRoot.RebuildTellsEveryJoiner | Gems/Multiplayer/Code/Source/Components/NetworkHierarchyRootComponent.cpp:238-245 | every member new to the rebuilt list gets this entity as root |
| NetworkHierarchyRoot.NetworkHierarchyRootComponent.SetRootForEntity | Gems/Multiplayer/Code/Source/Components/NetworkHierarchyRootComponent.cpp:310-322 | an entity with a child or root component is told the root, others are ignored; when the entity is this component's own, this component takes the root as `SetTopLevelHierarchyRootEntity` does |
| NetworkHierarchyRoot.NetworkHierarchyRootComponent.SetTopLevelHierarchyRootEntity | Gems/Multiplayer/Code/Source/Components/NetworkHierarchyRootComponent.cpp:324-347 | stores the root and, on the authority, replicates its network id (invalid for a null root); a null root rebuilds this hierarchy, with the notifications and roots of that rebuild |
| NetworkHierarchyRoot.NetworkHierarchyRootComponent.OnActivate | Gems/Multiplayer/Code/Source/Components/NetworkHierarchyRootComponent.cpp:74-86 | enables the hierarchy and lists the own entity |
| NetworkHierarchyRoot.NetworkHierarchyRootComponent.OnDeactivate | Gems/Multiplayer/Code/Source/Components/NetworkHierarchyRootComponent.cpp:88-122 | disables the hierarchy, clears the member list and resets the root; a component that is its own root rebuilds to an empty list, a member asks its root to rebuild, a root tells each found transform child it has no root |
| Nodeable.Resized | Gems/ScriptCanvas/Code/Include/ScriptCanvas/Core/Nodeable.cpp:116-119 | the table has the new size, old slots keep their functors and new slots hold the no-op |
| Nodeable.CheckedOut | Gems/ScriptCanvas/Code/Include/ScriptCanvas/Core/Nodeable.cpp:101-109 | never empty: slot i when in range and set, else the no-op |
| Nodeable.Nodeable.constructor | Gems/ScriptCanvas/Code/Include/ScriptCanvas/Core/Nodeable.cpp:24-26 | no outs and no execution state |
| Nodeable.Nodeable.WithState | Gems/ScriptCanvas/Code/Include/ScriptCanvas/Core/Nodeable.cpp:28-31 | no outs and the given execution state |
| Nodeable.Nodeable.GetExecutionOut | Gems/ScriptCanvas/Code/Include/ScriptCanvas/Core/Nodeable.cpp:93-99 | with the asserted index and slot, the slot itself, which the checked getter also returns |
| Nodeable.Nodeable.GetExecutionOutChecked | Gems/ScriptCanvas/Code/Include/ScriptCanvas/Core/Nodeable.cpp:101-109 | never empty: slot i when in range and set, else the no-op |
| Nodeable.Nodeable.InitializeExecutionOuts | Gems/ScriptCanvas/Code/Include/ScriptCanvas/Core/Nodeable.cpp:116-119 | the table becomes its resized version |
| Nodeable.Nodeable.InitializeExecutionState | Gems/ScriptCanvas/Code/Include/ScriptCanvas/Core/Nodeable.cpp:126-132 | sets the state, which must not have been set before |
| Nodeable.Nodeable.SetExecutionOut | Gems/ScriptCanvas/Code/Include/ScriptCanvas/Core/Nodeable.cpp:134-138 | replaces only slot i, which must exist |
| Nodeable.Nodeable.SetExecutionOutChecked | Gems/ScriptCanvas/Code/Include/ScriptCanvas/Core/Nodeable.cpp:140-149 | an empty functor is an error and changes nothing; otherwise slot i is replaced |
| Nodeable.Nodeable.CallOut | Gems/ScriptCanvas/Code/Include/ScriptCanvas/Core/Nodeable.cpp:33-43 | calls the checked slot, which is never empty |
| Nodeable.ResizedKeepsNoEmptySlots | Gems/ScriptCanvas/Code/Include/ScriptCanvas/Core/Nodeable.cpp:116-119 | resizing never introduces an empty slot |
| Nodeable.ResizedIdempotent | Gems/ScriptCanvas/Code/Include/ScriptCanvas/Core/Nodeable.cpp:116-119 | resizing twice to the same size is resizing once |
| Nodeable.GrowThenShrink | Gems/ScriptCanvas/Code/Include/ScriptCanvas/Core/Nodeable.cpp:116-119 | growing then shrinking back restores the table |
| Nodeable.CheckedAgreesWithUnchecked | Gems/ScriptCanvas/Code/Include/ScriptCanvas/Core/Nodeable.cpp:93-109 | where the unchecked getter is allowed, the checked one agrees |
| Nodeable.SetThenGetChecked | Gems/ScriptCanvas/Code/Include/ScriptCanvas/Core/Nodeable.cpp:101-109 | a set slot reads back through the checked getter |
| Nodeable.NewSlotsCallNoOp | Gems/ScriptCanvas/Code/Include/ScriptCanvas/Core/Nodeable.cpp:33-37 | a slot added by resizing, or beyond the table, calls the no-op |
| MysticQtManager.ToLower | Gems/EMotionFX/Code/MysticQt/Source/MysticQtManager.cpp:61 | ASCII upper-case letters map to lower case, everything else to itself |
| MysticQtManager.FirstMatch | Gems/EMotionFX/Code/MysticQt/Source/MysticQtManager.cpp:57-66 | the first cache entry whose file name equals the name case-insensitively, or none |
| MysticQtManager.Manager.constructor | Gems/EMotionFX/Code/MysticQt/Source/MysticQtManager.cpp:23-27 | an empty cache and empty directories |
| MysticQtManager.Manager.SetAppDir | Gems/EMotionFX/Code/MysticQt/Source/MysticQtManager.cpp:86-87 | sets only the application directory |
| MysticQtManager.Manager.SetDataDir | Gems/EMotionFX/Code/MysticQt/Source/MysticQtManager.cpp:86-87 | sets only the data directory |
| MysticQtManager.Manager.FindIcon | Gems/EMotionFX/Code/MysticQt/Source/MysticQtManager.cpp:57-72 | the cache and icon after the specified find-or-insert |
| MysticQtManager.LookupHit | Gems/EMotionFX/Code/MysticQt/Source/MysticQtManager.cpp:57-66 | a hit leaves the cache unchanged and returns a matching entry's icon |
| MysticQtManager.LookupMiss | Gems/EMotionFX/Code/MysticQt/Source/MysticQtManager.cpp:68-71 | a miss appends exactly one entry for the name and returns its icon |
| MysticQtManager.LookupKeepsDistinct | Gems/EMotionFX/Code/MysticQt/Source/MysticQtManager.cpp:57-72 | no two entries are ever equal case-insensitively |
| MysticQtManager.LookupIdempotent | Gems/EMotionFX/Code/MysticQt/Source/MysticQtManager.cpp:57-72 | a second lookup of the same name changes nothing and returns the same icon |
| MysticQtManager.EqualNoCaseReflexive | Gems/EMotionFX/Code/MysticQt/Source/MysticQtManager.cpp:61 | a name equals itself case-insensitively |
| MysticQtManager.CaseVariantsShareEntry | Gems/EMotionFX/Code/MysticQt/Source/MysticQtManager.cpp:57-66 | names differing only in case find the same entry |
| MysticQtManager.Manager.Destroy | Gems/EMotionFX/Code/MysticQt/Source/MysticQtManager.cpp:30-38 | the destructor empties the icon list |
| MysticQtManager.Globals.constructor | Gems/EMotionFX/Code/MysticQt/Source/MysticQtManager.cpp:76 | no global manager |
| MysticQtManager.Globals.Init | Gems/EMotionFX/Code/MysticQt/Source/MysticQtManager.cpp:78-90 | always true; an existing manager is kept, otherwise a new one gets the directories |
| MysticQtManager.Globals.Shutdown | Gems/EMotionFX/Code/MysticQt/Source/MysticQtManager.cpp:94-99 | the global manager is null and the old one's icons are released |
| QueryVector.WithVector2 | Gems/MotionMatching/Code/Source/QueryVector.cpp:16-20 | the buffer keeps its size |
| QueryVector.WithVector3 | Gems/MotionMatching/Code/Source/QueryVector.cpp:22-27 | the buffer keeps its size |
| QueryVector.QueryVector.constructor | Gems/MotionMatching/Code/Source/QueryVector.cpp:10-14 | a fresh buffer of the given size |
| QueryVector.QueryVector.SetVector2 | Gems/MotionMatching/Code/Source/QueryVector.cpp:16-20 | the buffer becomes the specified write |
| QueryVector.QueryVector.SetVector3 | Gems/MotionMatching/Code/Source/QueryVector.cpp:22-27 | the buffer becomes the specified write |
| QueryVector.QueryVector.GetVector2 | Gems/MotionMatching/Code/Source/QueryVector.cpp:29-32 | reads the two components at the offset without changing the buffer |
| QueryVector.QueryVector.GetVector3 | Gems/MotionMatching/Code/Source/QueryVector.cpp:34-37 | reads the three components at the offset without changing the buffer |
| QueryVector.Vector2RoundTrip | Gems/MotionMatching/Code/Source/QueryVector.cpp:16-32 | reading back a written Vector2 gives it |
| QueryVector.Vector3RoundTrip | Gems/MotionMatching/Code/Source/QueryVector.cpp:22-37 | reading back a written Vector3 gives it |
| QueryVector.Vector2WritesExactly | Gems/MotionMatching/Code/Source/QueryVector.cpp:16-20 | a Vector2 write changes exactly the offset and the next index |
| QueryVector.Vector3WritesExactly | Gems/MotionMatching/Code/Source/QueryVector.cpp:22-27 | a Vector3 write changes exactly three indices |
| QueryVector.Vector3WriteBack | Gems/MotionMatching/Code/Source/QueryVector.cpp:22-37 | writing back what was read changes nothing |
| QueryVector.DisjointWritesCommute | Gems/MotionMatching/Code/Source/QueryVector.cpp:16-27 | writes to disjoint ranges do not disturb each other |
| SelectTrack.LoadedKey | Gems/Maestro/Code/Source/Cinematics/SelectTrack.cpp:22-33 | the selection from `node`, the blend time from `BlendTime`, and the camera id only when its attribute is present |
| SelectTrack.SavedAttrs | Gems/Maestro/Code/Source/Cinematics/SelectTrack.cpp:34-43 | `node` and `BlendTime` always written, `CameraAzEntityId` only for a valid camera id, other attributes kept |
| SelectTrack.XmlNode.constructor | Gems/Maestro/Code/Source/Cinematics/SelectTrack.cpp:20-44 | a node without attributes |
| SelectTrack.SerializeKey | Gems/Maestro/Code/Source/Cinematics/SelectTrack.cpp:20-44 | loading reads the key without touching the node; saving writes the attributes without touching the key |
| SelectTrack.SaveThenLoad | Gems/Maestro/Code/Source/Cinematics/SelectTrack.cpp:20-44 | loading what was saved restores the selection and blend time, and the camera id when it was valid |
| SelectTrack.SaveThenLoadIntoSameKey | Gems/Maestro/Code/Source/Cinematics/SelectTrack.cpp:20-44 | saving to a fresh node and loading back into the key gives the key |
| SelectTrack.SaveWritesOnly | Gems/Maestro/Code/Source/Cinematics/SelectTrack.cpp:34-43 | a fresh node gets exactly `node`, `BlendTime`, and `CameraAzEntityId` for a valid camera id |
| SelectTrack.SelectTrack.constructor | Gems/Maestro/Code/Source/Cinematics/SelectTrack.cpp:53-63 | a track without keys |
| SelectTrack.SelectTrack.GetValueType | Gems/Maestro/Code/Source/Cinematics/SelectTrack.cpp:47-50 | the Select value type |
| SelectTrack.SelectTrack.GetKeyInfo | Gems/Maestro/Code/Source/Cinematics/SelectTrack.cpp:53-63 | the key's duration, and a null description iff its selection is empty |
| SelectTrack.DataElementNode.constructor | Gems/Maestro/Code/Source/Cinematics/SelectTrack.cpp:66-76 | a serialized element with its version and sub-elements |
| SelectTrack.SelectTrackVersionConverter | Gems/Maestro/Code/Source/Cinematics/SelectTrack.cpp:66-76 | always true; a `BaseClass1` element is added iff the version is below 3 |
| Dumper.ScanEnd | Code/Tools/SerializeContextTools/Dumper.cpp:173 | the scan stops at the first '<' or NUL, or at the end |
| Dumper.LastSeparatorBelow | Code/Tools/SerializeContextTools/Dumper.cpp:173-188 | the start of the last "::" before the stop, or 0 when there is none |
| Dumper.ExtractNamespace | Code/Tools/SerializeContextTools/Dumper.cpp:169-191 | a prefix of the name, ending just before the last "::" before the first '<', or empty |
| Dumper.NamespaceIgnoresTemplateArguments | Code/Tools/SerializeContextTools/Dumper.cpp:173 | "::" inside template arguments never changes the namespace |
| Dumper.NamespaceOfQualifiedName | Code/Tools/SerializeContextTools/Dumper.cpp:169-191 | `ns::name` has namespace `ns` |
| Dumper.AppendTypeName | Code/Tools/SerializeContextTools/Dumper.cpp:569-583 | appends the class name, else "Asset" for the asset class id, else the id's text |
| Dumper.AppendElement | Code/Tools/SerializeContextTools/Dumper.cpp:407-427 | one argument's name, its own arguments if generic, and '*' for a pointer |
| Dumper.AppendElements | Code/Tools/SerializeContextTools/Dumper.cpp:402-431 | the container's arguments separated by ',' |
| Dumper.AppendArguments | Code/Tools/SerializeContextTools/Dumper.cpp:432-446 | the templated arguments' names separated by ',' |
| Dumper.DumpGenericStructure | Code/Tools/SerializeContextTools/Dumper.cpp:399-449 | appends '<', the arguments, then '>' |
| Dumper.DumpClassName | Code/Tools/SerializeContextTools/Dumper.cpp:534-567 | Namespace and Name with namespace + "::" + name the full name when there is a namespace, and Name alone otherwise |
| Dumper.SplitAtSeparator | Code/Tools/SerializeContextTools/Dumper.cpp:554-566 | a name with "::" at n is its text before n, "::", and the rest |
| SettingsRegistryMergeUtils.PlatformGet | Code/Framework/AzCore/AzCore/Settings/SettingsRegistryMergeUtils.h:236-251 | the platform-specific value when present, otherwise exactly the generic lookup |
| SettingsRegistryMergeUtils.PlatformKeyDiffersFromGeneric | Code/Framework/AzCore/AzCore/Settings/SettingsRegistryMergeUtils.h:239-249 | the platform key and the generic key differ |
| SettingsRegistryMergeUtils.PlatformValueShadowsGeneric | Code/Framework/AzCore/AzCore/Settings/SettingsRegistryMergeUtils.h:239-245 | a platform-specific value shadows the generic one |
| SettingsRegistryMergeUtils.GenericValueIsFallback | Code/Framework/AzCore/AzCore/Settings/SettingsRegistryMergeUtils.h:247-250 | without a platform value the generic value is read |
| SettingsRegistryMergeUtils.WindowsPlatformKey | Code/Framework/AzCore/Platform/Windows/AzCore/AzCore_Traits_Windows.h:46 | on Windows the first key is "<rootPath>/windows_<keyName>" |
| SettingsRegistryMergeUtils.KeyOfSnoc | Code/Framework/AzCore/AzCore/Settings/SettingsRegistryMergeUtils.h:31-68 | a key with one more segment is the shorter key, '/', and the segment |
| SettingsRegistryMergeUtils.KeyOfPrefix | Code/Framework/AzCore/AzCore/Settings/SettingsRegistryMergeUtils.h:31-68 | a key is a prefix of every key that extends its segments |
| SettingsRegistryMergeUtils.OrganizationRootText | Code/Framework/AzCore/AzCore/Settings/SettingsRegistryMergeUtils.h:30 | the organization root key is "/Amazon" |
| SettingsRegistryMergeUtils.FilePathsRootText | Code/Framework/AzCore/AzCore/Settings/SettingsRegistryMergeUtils.h:35 | the file-paths root key is "/Amazon/AzCore/Runtime/FilePaths" |
| SettingsRegistryMergeUtils.SettingsKeysUnderOrganizationRoot | Code/Framework/AzCore/AzCore/Settings/SettingsRegistryMergeUtils.h:30-34 | the root, settings, bootstrap and gem keys start with the organization root |
| SettingsRegistryMergeUtils.RuntimeKeysUnderOrganizationRoot | Code/Framework/AzCore/AzCore/Settings/SettingsRegistryMergeUtils.h:35-68 | the file-paths, command-line, project and engine keys start with the organization root |
| SettingsRegistryMergeUtils.FilePathKeysUnderOrganizationRoot | Code/Framework/AzCore/AzCore/Settings/SettingsRegistryMergeUtils.h:36-56 | every file-path key starts with the organization root |
| SettingsRegistryMergeUtils.KeysUnderOrganizationRoot | Code/Framework/AzCore/AzCore/Settings/SettingsRegistryMergeUtils.h:30-68 | every key constant starts with "/Amazon" |
| SettingsRegistryMergeUtils.FilePathKeysUnderFilePathsRoot | Code/Framework/AzCore/AzCore/Settings/SettingsRegistryMergeUtils.h:35-56 | the file-paths root is "/Amazon/AzCore/Runtime/FilePaths", and every file-path key is that root, '/', and its name |
| IsolateAndAssign.Basename | Gems/AtomLyIntegration/TechnicalArt/DccScriptingInterface/SDK/Maya/Scripts/Python/legacy_asset_converter/isolate_and_assign.py:50 | the suffix after the last '/', without '/' |
| IsolateAndAssign.SplitHead | Gems/AtomLyIntegration/TechnicalArt/DccScriptingInterface/SDK/Maya/Scripts/Python/legacy_asset_converter/isolate_and_assign.py:51 | the first piece of a split is the text before the first separator |
| IsolateAndAssign.JoinSplit | Gems/AtomLyIntegration/TechnicalArt/DccScriptingInterface/SDK/Maya/Scripts/Python/legacy_asset_converter/isolate_and_assign.py:52-53 | joining a split with its separator gives the string back |
| IsolateAndAssign.SearchStringWithoutUnderscore | Gems/AtomLyIntegration/TechnicalArt/DccScriptingInterface/SDK/Maya/Scripts/Python/legacy_asset_converter/isolate_and_assign.py:52-54 | a stem without '_' gives the empty search string |
| IsolateAndAssign.SearchStringSplitsStem | Gems/AtomLyIntegration/TechnicalArt/DccScriptingInterface/SDK/Maya/Scripts/Python/legacy_asset_converter/isolate_and_assign.py:50-54 | search string + '_' + the last segment is the stem |
| IsolateAndAssign.SearchStringIsInsideStem | Gems/AtomLyIntegration/TechnicalArt/DccScriptingInterface/SDK/Maya/Scripts/Python/legacy_asset_converter/isolate_and_assign.py:50-54 | the search string is a prefix of the stem, free of '.' and '/' |
| IsolateAndAssign.GetSearchString | Gems/AtomLyIntegration/TechnicalArt/DccScriptingInterface/SDK/Maya/Scripts/Python/legacy_asset_converter/isolate_and_assign.py:44-54 | the search string is a prefix of the file stem |
| IsolateAndAssign.GetTextureType | Gems/AtomLyIntegration/TechnicalArt/DccScriptingInterface/SDK/Maya/Scripts/Python/legacy_asset_converter/isolate_and_assign.py:57-69 | only one of the five PBR type names, or None |
| IsolateAndAssign.RemoveAllAbsent | Gems/AtomLyIntegration/TechnicalArt/DccScriptingInterface/SDK/Maya/Scripts/Python/legacy_asset_converter/isolate_and_assign.py:65 | removing a pattern that does not occur changes nothing |
| IsolateAndAssign.RemoveAllLeading | Gems/AtomLyIntegration/TechnicalArt/DccScriptingInterface/SDK/Maya/Scripts/Python/legacy_asset_converter/isolate_and_assign.py:65 | removing a pattern that starts the string drops it and continues after it |
| IsolateAndAssign.HeadBeforeDot | Gems/AtomLyIntegration/TechnicalArt/DccScriptingInterface/SDK/Maya/Scripts/Python/legacy_asset_converter/isolate_and_assign.py:66 | the first piece of splitting "<head>.<rest>" at '.' is the head when it has no '.' |
| IsolateAndAssign.ConventionalNameHasItsType | Gems/AtomLyIntegration/TechnicalArt/DccScriptingInterface/SDK/Maya/Scripts/Python/legacy_asset_converter/isolate_and_assign.py:57-69 | "<search><separator><Type>.<ext>" with the search string nowhere else has type Type |
| IsolateAndAssign.StemWithoutUnderscoreTypesByName | Gems/AtomLyIntegration/TechnicalArt/DccScriptingInterface/SDK/Maya/Scripts/Python/legacy_asset_converter/isolate_and_assign.py:44-69 | a stem without '_' gives the empty search string, which removes nothing: "<c><Type>.<extension>" has type Type for any first character other than '.' |
| IsolateAndAssign.EmptySearchStringTypesByName | Gems/AtomLyIntegration/TechnicalArt/DccScriptingInterface/SDK/Maya/Scripts/Python/legacy_asset_converter/isolate_and_assign.py:57-69 | with the empty search string, "<c><Type>.<extension>" has type Type |

## Left out

- Floating point: vector components, blend times, durations and the query buffer hold `real`; rounding is not modelled.
- The header constants `BitsForUvIndex`, `MaxUvSlots` and `UnassignedTangent` are a `Constants` parameter, since their header is not part of this model. Its requirements follow from the 4-bit `0b1111` masks and the counter shift. `bg_hierarchyEntityMaxLimit` is the component's `maxLimit`.
- UvStreamTangentBitmask.UvStreamTangentBitmask.constructor: the zero mask stands for the member initialiser of `m_mask` in UvStreamTangentBitmask.h, which the .cpp includes at line 13. That header is not part of this model.
- QueryVector.QueryVector.constructor: a fresh array of the given size stands for the buffer of QueryVector.h (included at QueryVector.cpp:10) and its class allocator (line 14). That header is not part of this model, so the buffer's initial contents are left unspecified.
- UvStreamTangentBitmask.UvStreamTangentBitmask.TangentAtUv: requires a shift below 32 bits, because a wider shift is undefined in C++.
- MaterialPropertyValueSerializer: the JSON library's `ContinueLoading` and `ContinueStoring` are function parameters. `ResultCode::Combine` is modelled on the processing part only. Reporting through the context is reduced to the message.
- MaterialVersionUpdate: the variant's `CastToType` and `UnspecifiedMaterialTypeVersion` are parameters; error messages are not modelled.
- MaterialVersionUpdate.MaterialVersionUpdates.ValidateUpdates: modelled with a non-null error callback. `ApplyVersionUpdates` passes its own caller's `reportError` on unchanged, so that callback may be null. A null callback is not a supported use, though: `ValidateUpdates` calls `onError` without a null test when the versions are out of order or out of range, when a renamed name is reused, and when a rename target is missing (MaterialVersionUpdate.cpp:485-497, 510-514, 544-547). Only the checks of individual actions test for null (MaterialVersionUpdate.cpp:82-179), and there a null callback also skips the layout check (`LayoutOnlyTightens` states this for one action).
- MaterialVersionUpdate.NewAction: the definition's map iteration order is given as a sequence of entries.
- MaterialVersionUpdate.ResolvingKeepsValid: the resolver of `AddAction` is an optional function parameter.
- MaterialVersionUpdate.GetArgAsName: an argument that is not a string reads as the empty name. The source asserts it is a string and does not define a result otherwise.
- MaterialSourceData: these collaborators are an `Environment` parameter:
  - the JSON file loading of `.material` and `.materialtype` files;
  - `ResolvePathReference`;
  - `MakeAssetId`, whose two-path form is taken as the id of the resolved path;
  - `CreateMaterialTypeAsset`, as whether the type source builds;
  - `LoadAsset`;
  - `GetImageAssetReference`, whose Missing result is `None`;
  - the verdict of `MaterialAssetCreator::End`.
- MaterialSourceData: `Begin`, the validation inside `SetPropertyValue`, warning elevation, `ResolveUvEnums` and the asset id argument are not modelled. The unreachable `default` processing mode is left out.
- MaterialSourceData: a property id is a (group, name) pair. The source keys properties by the flattened text "group.name", so there ("a.b", "c") and ("a", "b.c") are the same property; here they are different.
- MaterialSourceData: the unused template helper `ApplyMaterialValues` is not modelled separately. `SetPropertyValues` is the same loop.
- NetworkHierarchyRoot: bus notifications to other components are recorded in a log rather than applied to them. The exception is this component's own entity: what it is told, this component applies to itself. `OnChildChanged`, `OnParentChanged` and the bus connections are not modelled. The entity lookup is a `World` map.
- NetworkHierarchyRoot.NetworkHierarchyRootComponent.constructor: the initial values (disabled, no members, no root) stand for the header's member initialisers. That header is not part of this model.
- NetworkHierarchyRoot: the network entity manager's `GetNetEntityIdById` is the `netEntityIdOf` parameter of a `Network` value. Its `None` result stands for `InvalidNetEntityId`. Whether the component has a controller and is the authority is the one flag `isAuthority`.
- NetworkHierarchyRoot.NetworkHierarchyRootComponent.OnDeactivate: requires that the own entity is not among its own transform children, as the transform bus never reports an entity as its own child.
- Nodeable: `OnInitializeExecutionState` and the functor bodies are not modelled. A functor is an opaque identity.
- MysticQtManager: only ASCII letters are case-folded. Qt's loading of the icon file is reduced to an icon value naming the directory and file.
- MysticQtManager.Manager.FindIcon: a new icon is built from this manager's data directory. The source's `IconData` reads the global manager's `GetDataDir()`; the two agree when the global manager is the one asked.
- SelectTrack: XML attributes are a map of typed values. The key sorting in `CheckValid` and the invalid-entity sentinel (modelled as `None`) are not modelled further. `AnimValueType` has only the one value this track returns, since its header is not part of this model.
- Dumper: JSON document building is reduced to the Namespace/Name strings. The serialize context is a map from type ids to class data.
- SettingsRegistryMergeUtils: the key constants are written as their '/'-separated segments (`KeyOf`); `OrganizationRootText` and `FilePathsRootText` give two of them as text.
- SettingsRegistryMergeUtils.PlatformGet: the registry is a map; type mismatches on `Get` are not modelled. The keys are unbounded strings: `FixedValueString::format` truncates a key longer than its fixed capacity, and that truncation is not modelled.
- IsolateAndAssign: only `get_search_string` and `get_texture_type` are modelled; the Maya scene operations are outside the model. Paths use '/' as separator.
