/**
 * The JSON serializer of a material property value: `Load` picks the variant
 * alternative from the kind of the JSON value, `Store` picks the writer from the
 * alternative the variant holds.
 *
 * The JSON library's own conversion (`ContinueLoading` / `ContinueStoring`) is a
 * function parameter: it yields the converted value and how far processing got.
 */
module MaterialPropertyValueSerializer {
  import opened Wrappers
  import opened MaterialValue

  /** A rapidjson value; a number carries the representability flags rapidjson reports for it. */
  datatype JsonValue =
    | JNull
    | JBool(b: bool)
    | JNumber(isInt: bool, isInt64: bool, isUint: bool, isUint64: bool, isFloat: bool, isDouble: bool)
    | JString(s: string)
    | JArray(elements: seq<JsonValue>)
    | JObject(members: seq<(string, JsonValue)>)

  /** How far a serialization step got, from best to worst. */
  datatype Processing = Completed | Altered | PartialAlter | Halted

  function Rank(p: Processing): nat
  {
    match p
    case Completed => 0
    case Altered => 1
    case PartialAlter => 2
    case Halted => 3
  }

  /** `ResultCode::Combine` on the processing part: the worse of the two. */
  function Combine(a: Processing, b: Processing): (r: Processing)
    ensures Rank(r) == if Rank(a) >= Rank(b) then Rank(a) else Rank(b)
    ensures r == Completed <==> a == Completed && b == Completed
  {
    if Rank(a) >= Rank(b) then a else b
  }

  /** What `ContinueLoading` produced for one requested alternative. */
  datatype Loaded = Loaded(value: Value, processing: Processing)

  /** `ContinueLoading` always writes a value of the alternative it was asked for. */
  ghost predicate LoadsRequestedType(continueLoading: (ValueType, JsonValue) -> Loaded)
  {
    forall t, j :: TypeOf(continueLoading(t, j).value) == t
  }

  /** What `Load` reports: a result with its message, or "Unknown data type" as Unsupported. */
  datatype LoadReport =
    | Reported(processing: Processing, message: string)
    | UnknownDataType

  /** The property value after `Load`, and its report. */
  datatype LoadOutcome = LoadOutcome(value: Value, report: LoadReport)

  const LoadedMessage := "Successfully loaded property value."
  const PartiallyLoadedMessage := "Partially loaded property value."

  /** `LoadVariant<T>`: the value is replaced by whatever `ContinueLoading` wrote, whatever its outcome. */
  function LoadVariant(t: ValueType, input: JsonValue, continueLoading: (ValueType, JsonValue) -> Loaded): Loaded
  {
    continueLoading(t, input)
  }

  /** The report for a dispatched load: "Successfully" when processing completed, "Partially" otherwise. */
  function Report(p: Processing): LoadReport
  {
    Reported(p, if p == Completed then LoadedMessage else PartiallyLoadedMessage)
  }

  /** The alternative `Load` asks for, for every kind of JSON value except an object. */
  function DirectType(input: JsonValue): Option<ValueType>
  {
    if input.JBool? then Some(BoolType)
    else if input.JNumber? && (input.isInt || input.isInt64) then Some(Int32Type)
    else if input.JNumber? && (input.isUint || input.isUint64) then Some(UInt32Type)
    else if input.JNumber? && (input.isFloat || input.isDouble) then Some(FloatType)
    else if input.JArray? && |input.elements| == 4 then Some(Vector4Type)
    else if input.JArray? && |input.elements| == 3 then Some(Vector3Type)
    else if input.JArray? && |input.elements| == 2 then Some(Vector2Type)
    else if input.JString? then Some(StringType)
    else None
  }

  /** An object is tried as Color, then Vector4, Vector3, Vector2; the first completed attempt is kept. */
  function LoadObject(input: JsonValue, continueLoading: (ValueType, JsonValue) -> Loaded): (r: LoadOutcome)
    ensures r.report.UnknownDataType? <==>
              && continueLoading(ColorType, input).processing != Completed
              && continueLoading(Vector4Type, input).processing != Completed
              && continueLoading(Vector3Type, input).processing != Completed
              && continueLoading(Vector2Type, input).processing != Completed
    ensures r.report.Reported? ==> r.report == Reported(Completed, LoadedMessage)
  {
    var color := LoadVariant(ColorType, input, continueLoading);
    if color.processing == Completed then LoadOutcome(color.value, Report(color.processing))
    else
      var v4 := LoadVariant(Vector4Type, input, continueLoading);
      if v4.processing == Completed then LoadOutcome(v4.value, Report(v4.processing))
      else
        var v3 := LoadVariant(Vector3Type, input, continueLoading);
        if v3.processing == Completed then LoadOutcome(v3.value, Report(v3.processing))
        else
          var v2 := LoadVariant(Vector2Type, input, continueLoading);
          if v2.processing == Completed then LoadOutcome(v2.value, Report(v2.processing))
          else LoadOutcome(v2.value, UnknownDataType)
  }

  /** `JsonMaterialPropertyValueSerializer::Load`. */
  function Load(input: JsonValue, current: Value, continueLoading: (ValueType, JsonValue) -> Loaded): (r: LoadOutcome)
    ensures r.report.Reported? ==> (r.report.message == LoadedMessage <==> r.report.processing == Completed)
    ensures !input.JObject? && DirectType(input).None? ==> r == LoadOutcome(current, UnknownDataType)
  {
    if input.JObject? then
      LoadObject(input, continueLoading)
    else if DirectType(input).Some? then
      var loaded := LoadVariant(DirectType(input).value, input, continueLoading);
      LoadOutcome(loaded.value, Report(Combine(Completed, loaded.processing)))
    else
      LoadOutcome(current, UnknownDataType)
  }

  // ---------------------------------------------------------------------------
  // Store
  // ---------------------------------------------------------------------------

  /** The alternatives `Store` has a writer for. */
  const StorableTypes: set<ValueType> :=
    {BoolType, Int32Type, UInt32Type, FloatType, Vector2Type, Vector3Type, Vector4Type, ColorType, StringType}

  /** What `ContinueStoring` produced. */
  datatype Stored = Stored(output: JsonValue, processing: Processing)

  /** The JSON value after `Store`, the combined processing and the report's message. */
  datatype StoreOutcome = StoreOutcome(output: JsonValue, processing: Processing, message: string)

  const StoredMessage := "Successfully stored property value."
  const PartiallyStoredMessage := "Partially stored property value."

  /** `JsonMaterialPropertyValueSerializer::Store`. */
  function Store(output: JsonValue, v: Value, continueStoring: (ValueType, Value) -> Stored): (r: StoreOutcome)
    ensures TypeOf(v) in StorableTypes ==>
              r.output == continueStoring(TypeOf(v), v).output && r.processing == continueStoring(TypeOf(v), v).processing
    ensures TypeOf(v) !in StorableTypes ==> r.output == output && r.processing == Completed && r.message == StoredMessage
    ensures r.message == StoredMessage <==> r.processing == Completed
  {
    var p := if TypeOf(v) in StorableTypes then continueStoring(TypeOf(v), v).processing else Completed;
    var out := if TypeOf(v) in StorableTypes then continueStoring(TypeOf(v), v).output else output;
    StoreOutcome(out, Combine(Completed, p), if Combine(Completed, p) == Completed then StoredMessage else PartiallyStoredMessage)
  }

  // ---------------------------------------------------------------------------
  // Properties
  // ---------------------------------------------------------------------------

  /**
   * The dispatch of `Load` on a JSON value that is not an object: a bool loads as
   * bool, int before uint before float, arrays of 4, 3 and 2 elements as Vector4,
   * Vector3 and Vector2, a string as string; everything else is Unsupported and
   * leaves the value as it was.
   */
  lemma LoadDispatch(input: JsonValue, current: Value, continueLoading: (ValueType, JsonValue) -> Loaded)
    requires LoadsRequestedType(continueLoading)
    requires !input.JObject?
    ensures var r := Load(input, current, continueLoading);
            && (input.JBool? ==> TypeOf(r.value) == BoolType)
            && (input.JNumber? && (input.isInt || input.isInt64) ==> TypeOf(r.value) == Int32Type)
            && (input.JNumber? && !input.isInt && !input.isInt64 && (input.isUint || input.isUint64) ==> TypeOf(r.value) == UInt32Type)
            && (input.JNumber? && !input.isInt && !input.isInt64 && !input.isUint && !input.isUint64 && (input.isFloat || input.isDouble)
                ==> TypeOf(r.value) == FloatType)
            && (input.JArray? && |input.elements| == 4 ==> TypeOf(r.value) == Vector4Type)
            && (input.JArray? && |input.elements| == 3 ==> TypeOf(r.value) == Vector3Type)
            && (input.JArray? && |input.elements| == 2 ==> TypeOf(r.value) == Vector2Type)
            && (input.JString? ==> TypeOf(r.value) == StringType)
            && (DirectType(input).Some? ==>
                  var loaded := continueLoading(DirectType(input).value, input);
                  r.value == loaded.value && r.report == Report(Combine(Completed, loaded.processing)))
            && (r.report.UnknownDataType? <==> DirectType(input).None?)
            && (r.report.UnknownDataType? ==> r.value == current)
  {
  }

  /**
   * An object loads as the first of Color, Vector4, Vector3, Vector2 whose attempt
   * completes; when none completes the result is Unsupported.
   */
  lemma LoadObjectFallbacks(input: JsonValue, current: Value, continueLoading: (ValueType, JsonValue) -> Loaded)
    requires LoadsRequestedType(continueLoading)
    requires input.JObject?
    ensures var r := Load(input, current, continueLoading);
            var completes := (t: ValueType) => continueLoading(t, input).processing == Completed;
            && (completes(ColorType) ==> r.value == continueLoading(ColorType, input).value && TypeOf(r.value) == ColorType)
            && (!completes(ColorType) && completes(Vector4Type) ==>
                  r.value == continueLoading(Vector4Type, input).value && TypeOf(r.value) == Vector4Type)
            && (!completes(ColorType) && !completes(Vector4Type) && completes(Vector3Type) ==>
                  r.value == continueLoading(Vector3Type, input).value && TypeOf(r.value) == Vector3Type)
            && (!completes(ColorType) && !completes(Vector4Type) && !completes(Vector3Type) ==>
                  r.value == continueLoading(Vector2Type, input).value && TypeOf(r.value) == Vector2Type)
            && (r.report.UnknownDataType? <==>
                  !completes(ColorType) && !completes(Vector4Type) && !completes(Vector3Type) && !completes(Vector2Type))
            && (r.report.Reported? ==> r.report.processing == Completed)
  {
  }

  /** Every alternative a successful `Load` produces is one `Store` has a writer for. */
  lemma LoadedTypesAreStorable(input: JsonValue, current: Value, continueLoading: (ValueType, JsonValue) -> Loaded)
    requires LoadsRequestedType(continueLoading)
    ensures var r := Load(input, current, continueLoading);
            r.report.Reported? ==> TypeOf(r.value) in StorableTypes
  {
  }

  /** The storable alternatives are exactly those other than empty, image asset and image instance. */
  lemma StorableTypesComplement(t: ValueType)
    ensures t in StorableTypes <==> !(t.InvalidType? || t.ImageAssetType? || t.ImageInstanceType?)
  {
  }
}
