/**
 * The name handling of the serialize-context dumper: splitting a class name into
 * its namespace and its own name, appending a type name for a type id, and
 * writing the "<arg,arg*>" text of a generic type's arguments.
 */
module Dumper {
  import opened Wrappers

  /** A type id; its text is what `Uuid::ToString` produces. */
  datatype Uuid = Uuid(text: string)

  /** What the dumper reads from a reflected class: its id, its name and its edit-context name. */
  datatype ClassData = ClassData(typeId: Uuid, name: string, editName: Option<string>)

  /** One type argument reported by a generic container: its id, its own generic info, its pointer flag. */
  datatype GenericElement = GenericElement(classId: Uuid, genericInfo: Option<GenericClassInfo>, isPointer: bool)

  /**
   * A generic class: when it has container class data, the element types its
   * container enumerates; otherwise only its templated type ids are used.
   */
  datatype GenericClassInfo = GenericClassInfo(hasContainer: bool, elements: seq<GenericElement>, templatedTypeIds: seq<Uuid>)

  /** The lookups the dumper makes in the serialize context. */
  datatype SerializeContext = SerializeContext(
    classes: map<Uuid, ClassData>,
    generics: map<Uuid, GenericClassInfo>,
    assetClassId: Uuid)

  /** The "Namespace" and "Name" members written for a class. */
  datatype ClassNameMembers = ClassNameMembers(namespace: Option<string>, name: string)

  // ---------------------------------------------------------------------------
  // ExtractNamespace
  // ---------------------------------------------------------------------------

  /** The character the C string walk reads at `i`: the terminating NUL past the end. */
  function CharAt(s: string, i: nat): char
  {
    if i < |s| then s[i] else '\0'
  }

  /** Where the namespace scan stops: the first '<' or NUL, or the end of the string. */
  function ScanEnd(s: string): (n: nat)
    ensures n <= |s|
    ensures forall j :: 0 <= j < n ==> s[j] != '<' && s[j] != '\0'
    ensures n < |s| ==> s[n] == '<' || s[n] == '\0'
  {
    if |s| == 0 || s[0] == '<' || s[0] == '\0' then 0 else 1 + ScanEnd(s[1..])
  }

  /** A "::" starts at `i` and lies before the scan's stop. */
  predicate IsSeparatorAt(s: string, i: nat)
  {
    i + 1 < ScanEnd(s) && s[i] == ':' && s[i + 1] == ':'
  }

  /** The start of the last "::" that begins below `n`, or 0 when there is none. */
  function LastSeparatorBelow(s: string, n: nat): (off: nat)
    ensures off <= n
    ensures forall i :: off < i < n ==> !IsSeparatorAt(s, i)
    ensures off > 0 ==> IsSeparatorAt(s, off)
  {
    if n == 0 then 0
    else if IsSeparatorAt(s, n - 1) then n - 1
    else LastSeparatorBelow(s, n - 1)
  }

  /** The length of the namespace part of a class name. */
  function NamespaceLength(s: string): nat
  {
    LastSeparatorBelow(s, ScanEnd(s))
  }

  /**
   * `ExtractNamespace`: the text before the last "::" that comes before the first
   * '<', so separators inside template arguments are ignored; empty when there is none.
   */
  method ExtractNamespace(name: string) returns (ns: string)
    ensures ns == name[..NamespaceLength(name)]
    ensures forall i :: |ns| < i && IsSeparatorAt(name, i) ==> false
    ensures |ns| > 0 ==> IsSeparatorAt(name, |ns|)
  {
    var offset := 0;
    var current := 0;
    while CharAt(name, current) != '\0' && CharAt(name, current) != '<'
      invariant current <= ScanEnd(name)
      invariant offset == LastSeparatorBelow(name, current)
      decreases |name| - current
    {
      if CharAt(name, current) != ':' {
        current := current + 1;
      } else {
        current := current + 1;
        if CharAt(name, current) == ':' {
          offset := current - 1;
        }
      }
    }
    assert current == ScanEnd(name);
    ns := name[..offset];
  }

  // ---------------------------------------------------------------------------
  // AppendTypeName and the string DumpGenericStructure
  // ---------------------------------------------------------------------------

  /** The name the dumper writes for a type id: the class name, "Asset", or the id's text. */
  function TypeName(classData: Option<ClassData>, classId: Uuid, context: SerializeContext): string
  {
    if classData.Some? then classData.value.name
    else if classId == context.assetClassId then "Asset"
    else classId.text
  }

  /** `AppendTypeName`: appends the class name, else "Asset" for the asset class id, else the id. */
  method AppendTypeName(output: string, classData: Option<ClassData>, classId: Uuid, context: SerializeContext)
    returns (out: string)
    ensures out == output + TypeName(classData, classId, context)
    ensures classData.Some? ==> out == output + classData.value.name
    ensures classData.None? && classId == context.assetClassId ==> out == output + "Asset"
    ensures classData.None? && classId != context.assetClassId ==> out == output + classId.text
  {
    if classData.Some? {
      out := output + classData.value.name;
    } else if classId == context.assetClassId {
      out := output + "Asset";
    } else {
      out := output + classId.text;
    }
  }

  function FindClassData(context: SerializeContext, id: Uuid): Option<ClassData>
  {
    if id in context.classes then Some(context.classes[id]) else None
  }

  /** The text of one enumerated argument: its name, its own arguments if generic, '*' if a pointer. */
  function ElementText(e: GenericElement, context: SerializeContext): string
    decreases e, 0, 0
  {
    TypeName(FindClassData(context, e.classId), e.classId, context)
    + (if e.genericInfo.Some? then GenericText(e.genericInfo.value, context) else "")
    + (if e.isPointer then "*" else "")
  }

  /** The first `n` enumerated arguments of a container, separated by ','. */
  function ElementsText(g: GenericClassInfo, n: nat, context: SerializeContext): string
    requires n <= |g.elements|
    decreases g, 1, n
  {
    if n == 0 then ""
    else
      var e := g.elements[n - 1];
      assert e in g.elements;
      if n == 1 then ElementText(e, context)
      else ElementsText(g, n - 1, context) + "," + ElementText(e, context)
  }

  /** The templated type ids' names, separated by ','. */
  function ArgumentsText(ids: seq<Uuid>, context: SerializeContext): string
  {
    if |ids| == 0 then ""
    else if |ids| == 1 then TypeName(FindClassData(context, ids[0]), ids[0], context)
    else ArgumentsText(ids[..|ids| - 1], context) + "," + TypeName(FindClassData(context, ids[|ids| - 1]), ids[|ids| - 1], context)
  }

  /** The "<...>" text of a generic class: '<', the arguments separated by ',', '>'. */
  function GenericText(g: GenericClassInfo, context: SerializeContext): string
    decreases g, 2, 0
  {
    "<"
    + (if g.hasContainer then ElementsText(g, |g.elements|, context) else ArgumentsText(g.templatedTypeIds, context))
    + ">"
  }

  /** One pass of the enumeration callback: the argument's name, its own arguments, its '*'. */
  method AppendElement(output: string, e: GenericElement, context: SerializeContext) returns (out: string)
    ensures out == output + ElementText(e, context)
    decreases e, 0
  {
    out := AppendTypeName(output, FindClassData(context, e.classId), e.classId, context);
    if e.genericInfo.Some? {
      out := DumpGenericStructure(out, e.genericInfo.value, context);
    }
    if e.isPointer {
      out := out + "*";
    }
  }

  /** The container enumeration: each element's text, separated by ','. */
  method AppendElements(output: string, g: GenericClassInfo, context: SerializeContext) returns (out: string)
    ensures out == output + ElementsText(g, |g.elements|, context)
    decreases g, 0
  {
    out := output;
    var firstArgument := true;
    var k := 0;
    while k < |g.elements|
      invariant 0 <= k <= |g.elements|
      invariant firstArgument <==> k == 0
      invariant out == output + ElementsText(g, k, context)
    {
      if !firstArgument {
        out := out + ",";
      } else {
        firstArgument := false;
      }
      assert g.elements[k] in g.elements;
      out := AppendElement(out, g.elements[k], context);
      k := k + 1;
    }
  }

  /** The templated type ids' names, separated by ','. */
  method AppendArguments(output: string, ids: seq<Uuid>, context: SerializeContext) returns (out: string)
    ensures out == output + ArgumentsText(ids, context)
  {
    out := output;
    var i := 0;
    while i < |ids|
      invariant 0 <= i <= |ids|
      invariant out == output + ArgumentsText(ids[..i], context)
    {
      if i != 0 {
        out := out + ",";
      }
      out := AppendTypeName(out, FindClassData(context, ids[i]), ids[i], context);
      assert ids[..i + 1][..i] == ids[..i];
      i := i + 1;
    }
    assert ids[..i] == ids;
  }

  /** The string overload of `DumpGenericStructure`: appends `GenericText(g)` to `output`. */
  method DumpGenericStructure(output: string, g: GenericClassInfo, context: SerializeContext)
    returns (out: string)
    ensures out == output + GenericText(g, context)
    decreases g, 1
  {
    out := output + "<";
    if g.hasContainer {
      out := AppendElements(out, g, context);
    } else {
      out := AppendArguments(out, g.templatedTypeIds, context);
    }
    out := out + ">";
  }

  // ---------------------------------------------------------------------------
  // DumpClassName
  // ---------------------------------------------------------------------------

  /** The name the dumper splits: a generic's name with its arguments, else the edit name when non-empty, else the class name. */
  function DisplayName(classData: ClassData, context: SerializeContext): string
  {
    if classData.typeId in context.generics then
      classData.name + GenericText(context.generics[classData.typeId], context)
    else if classData.editName.Some? && |classData.editName.value| > 0 then
      classData.editName.value
    else
      classData.name
  }

  /** A name with "::" at `n` is its text before `n`, "::", and its text after the separator. */
  lemma SplitAtSeparator(s: string, n: nat)
    requires IsSeparatorAt(s, n)
    ensures n + 2 <= |s| && s == s[..n] + "::" + s[n + 2..]
  {
    assert s[n..n + 2] == "::";
    assert s == s[..n] + s[n..n + 2] + s[n + 2..];
  }

  /**
   * `DumpClassName`: writes "Namespace" and "Name" when the display name has a
   * namespace, and "Name" alone otherwise; namespace, "::" and name give back the
   * display name.
   */
  method DumpClassName(classData: ClassData, context: SerializeContext) returns (members: ClassNameMembers)
    ensures var full := DisplayName(classData, context);
            members.namespace.Some? ==>
              |members.namespace.value| > 0 && members.namespace.value + "::" + members.name == full
    ensures var full := DisplayName(classData, context);
            members.namespace.Some? ==>
              && members.namespace.value == full[..NamespaceLength(full)]
              && members.name == full[NamespaceLength(full) + 2..]
    ensures members.namespace.None? ==> members.name == DisplayName(classData, context)
    ensures members.namespace.Some? <==> NamespaceLength(DisplayName(classData, context)) > 0
  {
    var scratch: string;
    if classData.typeId in context.generics {
      scratch := DumpGenericStructure(classData.name, context.generics[classData.typeId], context);
    } else {
      var hasEditName := classData.editName.Some? && |classData.editName.value| > 0;
      scratch := if hasEditName then classData.editName.value else classData.name;
    }
    assert scratch == DisplayName(classData, context);
    var namespacePortion := ExtractNamespace(scratch);
    if |namespacePortion| != 0 {
      SplitAtSeparator(scratch, |namespacePortion|);
      members := ClassNameMembers(Some(namespacePortion), scratch[|namespacePortion| + 2..]);
    } else {
      members := ClassNameMembers(None, scratch);
    }
  }

  // ---------------------------------------------------------------------------
  // Properties
  // ---------------------------------------------------------------------------

  /** A "::" inside template arguments never changes the namespace: only the text before '<' matters. */
  lemma {:induction false} NamespaceIgnoresTemplateArguments(prefix: string, args: string)
    requires '<' !in prefix && '\0' !in prefix
    ensures NamespaceLength(prefix + "<" + args) == NamespaceLength(prefix)
  {
    var s := prefix + "<" + args;
    ScanEndOfPrefix(prefix, args);
    SeparatorsAgree(prefix, s, ScanEnd(prefix));
  }

  lemma {:induction false} ScanEndOfPrefix(prefix: string, args: string)
    requires '<' !in prefix && '\0' !in prefix
    ensures ScanEnd(prefix + "<" + args) == |prefix| == ScanEnd(prefix)
    decreases |prefix|
  {
    if |prefix| > 0 {
      assert (prefix + "<" + args)[1..] == prefix[1..] + "<" + args;
      ScanEndOfPrefix(prefix[1..], args);
    }
  }

  lemma {:induction false} SeparatorsAgree(a: string, b: string, n: nat)
    requires ScanEnd(a) == ScanEnd(b) && n <= ScanEnd(a)
    requires forall j :: 0 <= j < ScanEnd(a) ==> a[j] == b[j]
    ensures LastSeparatorBelow(a, n) == LastSeparatorBelow(b, n)
  {
    if n > 0 {
      assert IsSeparatorAt(a, n - 1) == IsSeparatorAt(b, n - 1);
      SeparatorsAgree(a, b, n - 1);
    }
  }

  /** A name with a "::" before any '<' has a non-empty namespace ending just before the last one. */
  lemma NamespaceOfQualifiedName(ns: string, name: string)
    requires |ns| > 0 && '<' !in ns && '\0' !in ns
    requires ':' !in name && '<' !in name && '\0' !in name
    ensures NamespaceLength(ns + "::" + name) == |ns|
  {
    var s := ns + "::" + name;
    var e := ScanEnd(s);
    assert e == |s| by {
      forall j | 0 <= j < |s| ensures s[j] != '<' && s[j] != '\0' {
        if j < |ns| { assert s[j] == ns[j]; }
        else if j >= |ns| + 2 { assert s[j] == name[j - |ns| - 2]; }
      }
      NoStopScansToEnd(s);
    }
    assert IsSeparatorAt(s, |ns|);
    forall i | |ns| < i < e ensures !IsSeparatorAt(s, i) {
      if i > |ns| + 1 { assert s[i] == name[i - |ns| - 2]; }
      else if i + 1 < |s| { assert s[i + 1] == name[0]; }
    }
    NoLaterSeparator(s, |ns|, e);
  }

  lemma {:induction false} NoStopScansToEnd(s: string)
    requires forall j :: 0 <= j < |s| ==> s[j] != '<' && s[j] != '\0'
    ensures ScanEnd(s) == |s|
    decreases |s|
  {
    if |s| > 0 {
      NoStopScansToEnd(s[1..]);
    }
  }

  lemma {:induction false} NoLaterSeparator(s: string, k: nat, n: nat)
    requires k < n && IsSeparatorAt(s, k)
    requires forall i :: k < i < n ==> !IsSeparatorAt(s, i)
    ensures LastSeparatorBelow(s, n) == k
    decreases n
  {
    if n - 1 > k {
      NoLaterSeparator(s, k, n - 1);
    }
  }
}
