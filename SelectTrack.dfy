/**
 * `CSelectTrack`: the Track View track whose keys select a camera node. A key is
 * saved to and loaded from the attributes of an XML node; the track reports a
 * key's description and duration; a converter upgrades old serialized tracks.
 *
 * XML attributes are kept typed (text, unsigned 64-bit, float); the text
 * conversion the XML node does is not part of this model. An entity id is `None`
 * when invalid and `Some(raw id)` otherwise.
 */
module SelectTrack {
  import opened Wrappers

  datatype AttrValue = Text(s: string) | U64(n: nat) | Float(f: real)

  /** `ISelectKey`, the fields this track reads and writes. */
  datatype SelectKey = SelectKey(selection: string, cameraAzEntityId: Option<nat>, blendTime: real, duration: real)

  const NodeAttr := "node"
  const CameraAttr := "CameraAzEntityId"
  const BlendTimeAttr := "BlendTime"

  /** `getAttr(name)` for a string: the text, or "" when there is none. */
  function TextAttr(attrs: map<string, AttrValue>, name: string): string
  {
    if name in attrs && attrs[name].Text? then attrs[name].s else ""
  }

  /** The key after loading from a node with attributes `attrs`. */
  function LoadedKey(key: SelectKey, attrs: map<string, AttrValue>): (r: SelectKey)
    ensures r.selection == TextAttr(attrs, NodeAttr)
    ensures r.duration == key.duration
    ensures CameraAttr in attrs && attrs[CameraAttr].U64? ==> r.cameraAzEntityId == Some(attrs[CameraAttr].n)
    ensures !(CameraAttr in attrs && attrs[CameraAttr].U64?) ==> r.cameraAzEntityId == key.cameraAzEntityId
    ensures BlendTimeAttr in attrs && attrs[BlendTimeAttr].Float? ==> r.blendTime == attrs[BlendTimeAttr].f
    ensures !(BlendTimeAttr in attrs && attrs[BlendTimeAttr].Float?) ==> r.blendTime == key.blendTime
  {
    var camera :=
      if CameraAttr in attrs && attrs[CameraAttr].U64? then Some(attrs[CameraAttr].n) else key.cameraAzEntityId;
    var blend :=
      if BlendTimeAttr in attrs && attrs[BlendTimeAttr].Float? then attrs[BlendTimeAttr].f else key.blendTime;
    key.(selection := TextAttr(attrs, NodeAttr), cameraAzEntityId := camera, blendTime := blend)
  }

  /** The node's attributes after saving `key` into a node with attributes `attrs`. */
  function SavedAttrs(key: SelectKey, attrs: map<string, AttrValue>): (r: map<string, AttrValue>)
    ensures NodeAttr in r && r[NodeAttr] == Text(key.selection)
    ensures BlendTimeAttr in r && r[BlendTimeAttr] == Float(key.blendTime)
    ensures key.cameraAzEntityId.Some? ==> CameraAttr in r && r[CameraAttr] == U64(key.cameraAzEntityId.value)
    ensures key.cameraAzEntityId.None? ==> (CameraAttr in r <==> CameraAttr in attrs)
    ensures key.cameraAzEntityId.None? && CameraAttr in attrs ==> r[CameraAttr] == attrs[CameraAttr]
    ensures forall name :: name in attrs && name !in {NodeAttr, CameraAttr, BlendTimeAttr} ==> name in r && r[name] == attrs[name]
    ensures r.Keys == attrs.Keys + {NodeAttr, BlendTimeAttr} + (if key.cameraAzEntityId.Some? then {CameraAttr} else {})
  {
    var withNode := attrs[NodeAttr := Text(key.selection)];
    var withCamera :=
      if key.cameraAzEntityId.Some? then withNode[CameraAttr := U64(key.cameraAzEntityId.value)] else withNode;
    withCamera[BlendTimeAttr := Float(key.blendTime)]
  }

  /** An XML node; only its attributes matter here. */
  class XmlNode {
    var attrs: map<string, AttrValue>

    constructor ()
      ensures attrs == map[]
    {
      attrs := map[];
    }
  }

  /** `CSelectTrack::SerializeKey`: loads `key` from the node, or saves it into the node. */
  method SerializeKey(key: SelectKey, keyNode: XmlNode, loading: bool) returns (result: SelectKey)
    modifies keyNode
    ensures loading ==> result == LoadedKey(key, old(keyNode.attrs)) && keyNode.attrs == old(keyNode.attrs)
    ensures !loading ==> result == key && keyNode.attrs == SavedAttrs(key, old(keyNode.attrs))
  {
    result := key;
    if loading {
      result := result.(selection := TextAttr(keyNode.attrs, NodeAttr));
      if CameraAttr in keyNode.attrs && keyNode.attrs[CameraAttr].U64? {
        result := result.(cameraAzEntityId := Some(keyNode.attrs[CameraAttr].n));
      }
      if BlendTimeAttr in keyNode.attrs && keyNode.attrs[BlendTimeAttr].Float? {
        result := result.(blendTime := keyNode.attrs[BlendTimeAttr].f);
      }
    } else {
      keyNode.attrs := keyNode.attrs[NodeAttr := Text(result.selection)];
      if result.cameraAzEntityId.Some? {
        keyNode.attrs := keyNode.attrs[CameraAttr := U64(result.cameraAzEntityId.value)];
      }
      keyNode.attrs := keyNode.attrs[BlendTimeAttr := Float(result.blendTime)];
    }
  }

  datatype AnimValueType = Select

  class SelectTrack {
    var keys: seq<SelectKey>

    constructor ()
      ensures keys == []
    {
      keys := [];
    }

    /** `GetValueType`. */
    function GetValueType(): (t: AnimValueType)
      ensures t == Select
    {
      Select
    }

    /**
     * `GetKeyInfo`: the key's duration, and its selection as description, or a
     * null description when the selection is empty.
     */
    method GetKeyInfo(key: int) returns (description: Option<string>, duration: real)
      requires 0 <= key < |keys|
      ensures duration == keys[key].duration
      ensures description.None? <==> keys[key].selection == ""
      ensures description.Some? ==> description.value == keys[key].selection
    {
      description := None;
      duration := keys[key].duration;
      if keys[key].selection != "" {
        description := Some(keys[key].selection);
      }
    }
  }

  /** A serialized class element: its version and the names of its sub-elements. */
  class DataElementNode {
    var version: nat
    var subElements: seq<string>

    constructor (version: nat, subElements: seq<string>)
      ensures this.version == version && this.subElements == subElements
    {
      this.version := version;
      this.subElements := subElements;
    }
  }

  const CurrentVersion: nat := 3
  const BaseClassElement := "BaseClass1"

  /** `SelectTrackVersionConverter`: a track older than version 3 gains its `BaseClass1` element. */
  method SelectTrackVersionConverter(rootElement: DataElementNode) returns (ok: bool)
    modifies rootElement
    ensures ok
    ensures rootElement.version == old(rootElement.version)
    ensures old(rootElement.version) < CurrentVersion ==> rootElement.subElements == old(rootElement.subElements) + [BaseClassElement]
    ensures old(rootElement.version) >= CurrentVersion ==> rootElement.subElements == old(rootElement.subElements)
  {
    if rootElement.version < CurrentVersion {
      rootElement.subElements := rootElement.subElements + [BaseClassElement];
    }
    return true;
  }

  // ---------------------------------------------------------------------------
  // Properties
  // ---------------------------------------------------------------------------

  /**
   * Loading what was saved restores the selection and the blend time, and the
   * camera id when it was valid. An invalid camera id is not written, so the
   * loaded id is whatever the node held before, or else the loading key's own.
   */
  lemma {:induction false} SaveThenLoad(key: SelectKey, attrs: map<string, AttrValue>, into: SelectKey)
    ensures var loaded := LoadedKey(into, SavedAttrs(key, attrs));
            && loaded.selection == key.selection
            && loaded.blendTime == key.blendTime
            && (key.cameraAzEntityId.Some? ==> loaded.cameraAzEntityId == key.cameraAzEntityId)
            && (key.cameraAzEntityId.None? && CameraAttr !in attrs ==> loaded.cameraAzEntityId == into.cameraAzEntityId)
  {
    var saved := SavedAttrs(key, attrs);
    assert TextAttr(saved, NodeAttr) == key.selection;
  }

  /** Saving a key into a fresh node and loading it into the same key gives the key back. */
  lemma {:induction false} SaveThenLoadIntoSameKey(key: SelectKey)
    ensures LoadedKey(key, SavedAttrs(key, map[])) == key
  {
    SaveThenLoad(key, map[], key);
  }

  /** Saving writes exactly the `node` and `BlendTime` attributes, plus `CameraAzEntityId` for a valid camera. */
  lemma SaveWritesOnly(key: SelectKey)
    ensures SavedAttrs(key, map[]).Keys
            == if key.cameraAzEntityId.Some? then {NodeAttr, CameraAttr, BlendTimeAttr} else {NodeAttr, BlendTimeAttr}
  {
  }
}
