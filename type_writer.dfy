/**
  How the serializer spells a type: the built-in table, the namespace and
  nested-type names, the type reference written wherever a value is stored or
  passed, the name suffix used to tell conversion operators apart, and the
  template parameter and argument lists.

  `clean` is the identifier mangler applied to metadata names (CleanUpName);
  it is left uninterpreted.
*/
module TypeWriter {
  import opened Symbols
  import opened Text

  // ---------------------------------------------------------------------------
  // Built-in types
  // ---------------------------------------------------------------------------

  /** The fixed table of built-in primitives and their clean native spellings. */
  const BUILTIN_SPELLINGS: map<SpecialType, string> := map[
    SystemVoid := "void",
    SystemBoolean := "bool",
    SystemChar := "wchar_t",
    SystemSByte := "int8_t",
    SystemByte := "uint8_t",
    SystemInt16 := "int16_t",
    SystemUInt16 := "uint16_t",
    SystemInt32 := "int32_t",
    SystemUInt32 := "uint32_t",
    SystemInt64 := "int64_t",
    SystemUInt64 := "uint64_t",
    SystemSingle := "float",
    SystemDouble := "double",
    SystemIntPtr := "intptr_t",
    SystemUIntPtr := "uintptr_t"
  ]

  predicate IsPointerSized(special: SpecialType)
  {
    special == SystemIntPtr || special == SystemUIntPtr
  }

  /** WriteSpecialType: `Some(spelling)` exactly when the switch writes the
      spelling and returns true, `None` when it writes nothing and returns false. */
  function SpecialTypeSpelling(special: SpecialType, cleanName: bool): (r: Option<string>)
    ensures r.Some? <==> special in BUILTIN_SPELLINGS
    ensures r.Some? && (cleanName || !IsPointerSized(special)) ==> r.value == BUILTIN_SPELLINGS[special]
    ensures r.Some? && !cleanName && IsPointerSized(special) ==> r.value == "__val<" + BUILTIN_SPELLINGS[special] + ">"
  {
    match special
    case SystemVoid => Some("void")
    case SystemBoolean => Some("bool")
    case SystemChar => Some("wchar_t")
    case SystemSByte => Some("int8_t")
    case SystemByte => Some("uint8_t")
    case SystemInt16 => Some("int16_t")
    case SystemUInt16 => Some("uint16_t")
    case SystemInt32 => Some("int32_t")
    case SystemUInt32 => Some("uint32_t")
    case SystemInt64 => Some("int64_t")
    case SystemUInt64 => Some("uint64_t")
    case SystemSingle => Some("float")
    case SystemDouble => Some("double")
    case SystemIntPtr => if cleanName then Some("intptr_t") else Some("__val<intptr_t>")
    case SystemUIntPtr => if cleanName then Some("uintptr_t") else Some("__val<uintptr_t>")
    case _ => None
  }

  /** The table has exactly fifteen entries. */
  lemma BuiltinTableSize()
    ensures |BUILTIN_SPELLINGS| == 15
  {
    var keys: set<SpecialType> := {};
    var listed := [SystemVoid, SystemBoolean, SystemChar, SystemSByte, SystemByte,
                   SystemInt16, SystemUInt16, SystemInt32, SystemUInt32, SystemInt64,
                   SystemUInt64, SystemSingle, SystemDouble, SystemIntPtr, SystemUIntPtr];
    for i := 0 to |listed|
      invariant forall x :: x in keys <==> x in listed[..i]
      invariant |keys| == i
    {
      assert listed[i] !in listed[..i];
      assert listed[..i + 1] == listed[..i] + [listed[i]];
      keys := keys + {listed[i]};
    }
    assert listed[..|listed|] == listed;
    assert forall k :: k in BUILTIN_SPELLINGS <==> k in listed;
    assert BUILTIN_SPELLINGS.Keys == keys;
  }

  /** Two different built-in types never share a spelling, in either mode. */
  lemma SpecialTypeSpellingsDistinct(a: SpecialType, b: SpecialType, cleanName: bool)
    requires a in BUILTIN_SPELLINGS && b in BUILTIN_SPELLINGS && a != b
    ensures SpecialTypeSpelling(a, cleanName) != SpecialTypeSpelling(b, cleanName)
  {
  }

  /** A type the built-in table spells (the table is consulted only for value types). */
  predicate IsBuiltin(t: TypeSymbol)
  {
    t.isValueType && t.specialType in BUILTIN_SPELLINGS
  }

  // ---------------------------------------------------------------------------
  // Namespaces and nested-type names
  // ---------------------------------------------------------------------------

  /** WriteNamespaceName: the global namespace is named after the cleaned
      assembly name, any other namespace by its raw metadata name. */
  function NamespaceName(clean: string -> string, node: NamespaceNode): string
  {
    match node
    case GlobalNamespace(assemblyName) => clean(assemblyName)
    case Namespace(name) => name
  }

  function NamespaceNames(clean: string -> string, nodes: seq<NamespaceNode>): (names: seq<string>)
    ensures |names| == |nodes|
    ensures forall i :: 0 <= i < |nodes| ==> names[i] == NamespaceName(clean, nodes[i])
  {
    seq(|nodes|, i requires 0 <= i < |nodes| => NamespaceName(clean, nodes[i]))
  }

  /** What WriteNamespace writes for the enumerated namespace chain. */
  function NamespaceText(clean: string -> string, nodes: seq<NamespaceNode>): string
  {
    Join(NamespaceNames(clean, nodes), "::")
  }

  /** WriteNamespace: the names of the enumerated namespace nodes separated by `::`. */
  method WriteNamespace(clean: string -> string, nodes: seq<NamespaceNode>) returns (text: string)
    ensures text == NamespaceText(clean, nodes)
    ensures |nodes| == 1 && nodes[0].IsGlobalNamespace() ==> text == clean(nodes[0].assemblyMetadataName)
  {
    var any := false;
    text := "";
    for i := 0 to |nodes|
      invariant any == (i > 0)
      invariant text == Join(NamespaceNames(clean, nodes[..i]), "::")
    {
      if any {
        text := text + "::";
      }
      any := true;
      JoinSnoc(NamespaceNames(clean, nodes[..i]), NamespaceName(clean, nodes[i]), "::");
      assert NamespaceNames(clean, nodes[..i + 1]) == NamespaceNames(clean, nodes[..i]) + [NamespaceName(clean, nodes[i])];
      text := text + NamespaceName(clean, nodes[i]);
    }
    assert nodes[..|nodes|] == nodes;
  }

  /** WriteTypeName: the containing type's name, `_`, then the cleaned name. */
  function TypeName(clean: string -> string, t: TypeSymbol): string
    decreases t
  {
    (if t.containingType.Some? then TypeName(clean, t.containingType.value) + "_" else "")
    + clean(t.metadataName)
  }

  /** The chain of containing types ending in `t`, outermost first. */
  function ContainingChain(t: TypeSymbol): (chain: seq<TypeSymbol>)
    decreases t
    ensures |chain| >= 1 && chain[|chain| - 1] == t
  {
    (if t.containingType.Some? then ContainingChain(t.containingType.value) else []) + [t]
  }

  function ChainNames(clean: string -> string, chain: seq<TypeSymbol>): (names: seq<string>)
    ensures |names| == |chain|
    ensures forall i :: 0 <= i < |chain| ==> names[i] == clean(chain[i].metadataName)
  {
    seq(|chain|, i requires 0 <= i < |chain| => clean(chain[i].metadataName))
  }

  /** A nested type's name is its containing-type chain joined by `_`, outermost first. */
  lemma {:induction false} TypeNameJoinsChain(clean: string -> string, t: TypeSymbol)
    ensures TypeName(clean, t) == Join(ChainNames(clean, ContainingChain(t)), "_")
    decreases t
  {
    if t.containingType.Some? {
      var outer := t.containingType.value;
      TypeNameJoinsChain(clean, outer);
      JoinSnoc(ChainNames(clean, ContainingChain(outer)), clean(t.metadataName), "_");
      assert ChainNames(clean, ContainingChain(t))
          == ChainNames(clean, ContainingChain(outer)) + [clean(t.metadataName)];
    } else {
      assert ChainNames(clean, ContainingChain(t)) == [clean(t.metadataName)];
    }
  }

  // ---------------------------------------------------------------------------
  // Template parameter lists
  // ---------------------------------------------------------------------------

  function TemplateParameterName(clean: string -> string, p: TypeParameterSymbol): string
  {
    "typename " + clean(p.metadataName)
  }

  function TemplateParameterNames(clean: string -> string, ps: seq<TypeParameterSymbol>): (items: seq<string>)
    ensures |items| == |ps|
    ensures forall i :: 0 <= i < |ps| ==> items[i] == TemplateParameterName(clean, ps[i])
  {
    seq(|ps|, i requires 0 <= i < |ps| => TemplateParameterName(clean, ps[i]))
  }

  /** The items WriteTemplateDeclarationRecusive lists: the containing type's
      items first, then the type's own parameters. */
  function TemplateParameterItems(clean: string -> string, t: TypeSymbol): seq<string>
    decreases t
  {
    (if t.containingType.Some? then TemplateParameterItems(clean, t.containingType.value) else [])
    + TemplateParameterNames(clean, t.typeParameters)
  }

  /** What WriteTemplateDeclaration writes for a type. */
  function TemplateDeclaration(clean: string -> string, t: TypeSymbol): string
  {
    "template <" + Join(TemplateParameterItems(clean, t), ", ") + "> "
  }

  /** WriteTemplateDeclarationRecusive: `anyTypeParam` is the by-reference flag
      the recursion threads; `text` is what this call appends. */
  method WriteTemplateDeclarationRecursive(clean: string -> string, t: TypeSymbol, anyTypeParam: bool)
    returns (text: string, anyAfter: bool)
    ensures anyAfter == (anyTypeParam || |TemplateParameterItems(clean, t)| > 0)
    ensures text == FlaggedJoin(anyTypeParam, TemplateParameterItems(clean, t), ", ")
    decreases t
  {
    var outer: seq<string> := [];
    text, anyAfter := "", anyTypeParam;
    if t.containingType.Some? {
      outer := TemplateParameterItems(clean, t.containingType.value);
      text, anyAfter := WriteTemplateDeclarationRecursive(clean, t.containingType.value, anyTypeParam);
    }
    var own := TemplateParameterNames(clean, t.typeParameters);
    assert outer + own[..0] == outer;
    for i := 0 to |t.typeParameters|
      invariant anyAfter == (anyTypeParam || |outer| + i > 0)
      invariant text == FlaggedJoin(anyTypeParam, outer + own[..i], ", ")
    {
      var separator := if anyAfter then ", " else "";
      anyAfter := true;
      var item := "typename " + clean(t.typeParameters[i].metadataName);
      assert item == own[i];
      FlaggedJoinStep(anyTypeParam, outer, own, i, ", ");
      text := text + separator + item;
    }
    assert own[..|t.typeParameters|] == own;
  }

  /** One more of `own`'s items written after `outer` and `own[..i]`. */
  lemma FlaggedJoinStep(lead: bool, outer: seq<string>, own: seq<string>, i: nat, sep: string)
    requires i < |own|
    ensures FlaggedJoin(lead, outer + own[..i + 1], sep)
         == FlaggedJoin(lead, outer + own[..i], sep) + (if lead || |outer| + i > 0 then sep else "") + own[i]
  {
    assert outer + own[..i + 1] == (outer + own[..i]) + [own[i]];
    FlaggedJoinSnoc(lead, outer + own[..i], own[i], sep);
  }

  /** WriteTemplateDeclaration (for a type). */
  method WriteTemplateDeclaration(clean: string -> string, t: TypeSymbol) returns (text: string)
    ensures text == TemplateDeclaration(clean, t)
  {
    var items, _ := WriteTemplateDeclarationRecursive(clean, t, false);
    text := "template <" + items + "> ";
  }

  // ---------------------------------------------------------------------------
  // Type references (WriteType) and template argument lists
  // ---------------------------------------------------------------------------

  /** `r`'s text between `before` and `after`; a failure stays that failure. */
  function Wrapped(r: Result<string>, before: string, after: string): Result<string>
  {
    match r
    case Ok(text) => Ok(before + text + after)
    case Fail(f) => Fail(f)
  }

  /** WriteType: the full reference form of a type, or the exception it throws. */
  function TypeReference(clean: string -> string, t: TypeSymbol): Result<string>
    decreases t, 3, 0
  {
    var special := SpecialTypeSpelling(t.specialType, false);
    if t.isValueType && special.Some? then Ok(special.value)
    else
      match t.kind
      case Unknown => Fail(NotImplemented)
      case ArrayType(elementType) =>
        (match TypeReference(clean, elementType)
         case Ok(element) => Ok("__array<" + element + ">*")
         case Fail(f) => Fail(f))
      case Delegate | Interface | Class =>
        (match TypeFullName(clean, t)
         case Ok(name) => Ok(name + (if t.isReferenceType then "*" else ""))
         case Fail(f) => Fail(f))
      case DynamicType => Fail(NotImplemented)
      case Enum(underlyingType) =>
        (match TypeFullName(clean, t)
         case Fail(f) => Fail(f)
         case Ok(name) =>
           match TypeReference(clean, underlyingType)
           case Fail(f) => Fail(f)
           case Ok(underlying) => Ok("__enum<" + name + ", " + underlying + ">"))
      case Error => Fail(NotImplemented)
      case Module => Fail(NotImplemented)
      case PointerType(pointedAtType) =>
        (match TypeReference(clean, pointedAtType)
         case Ok(pointee) => Ok(pointee + "*")
         case Fail(f) => Fail(f))
      case Struct => TypeFullName(clean, t)
      case TypeParameter => Ok(clean(t.metadataName))
      case Submission => Fail(NotImplemented)
      case UnlistedKind(_) => Fail(ArgumentOutOfRange)
  }

  /** WriteTypeFullName: `ns::` when there is a containing namespace, the nested
      type name, then `<args>` when the type is generic. */
  function TypeFullName(clean: string -> string, t: TypeSymbol): Result<string>
    decreases t, 2, 0
  {
    var prefix := if t.containingNamespace.Some? then NamespaceText(clean, t.containingNamespace.value) + "::" else "";
    if t.isGenericType then
      match TemplateDefinition(clean, t)
      case Ok(arguments) => Ok(prefix + TypeName(clean, t) + arguments)
      case Fail(f) => Fail(f)
    else
      Ok(prefix + TypeName(clean, t))
  }

  /** What WriteTemplateDefinition writes: the argument list in angle brackets. */
  function TemplateDefinition(clean: string -> string, t: TypeSymbol): Result<string>
    decreases t, 1, 1
  {
    match TemplateArgumentItems(clean, t)
    case Ok(items) => Ok("<" + Join(items, ", ") + ">")
    case Fail(f) => Fail(f)
  }

  /** The items WriteTemplateDefinitionRecusive lists: the containing type's
      arguments first, then the type's own arguments, each a type reference. */
  function TemplateArgumentItems(clean: string -> string, t: TypeSymbol): Result<seq<string>>
    decreases t, 1, 0
  {
    var outer := if t.containingType.Some? then TemplateArgumentItems(clean, t.containingType.value) else Ok([]);
    match outer
    case Fail(f) => Fail(f)
    case Ok(outerItems) =>
      match TypeArgumentItems(clean, t, |t.typeArguments|)
      case Fail(f) => Fail(f)
      case Ok(own) => Ok(outerItems + own)
  }

  /** The references of the first `n` own type arguments; the first failing one decides. */
  function TypeArgumentItems(clean: string -> string, t: TypeSymbol, n: nat): (r: Result<seq<string>>)
    requires n <= |t.typeArguments|
    decreases t, 0, n
    ensures r.Ok? ==> |r.value| == n
  {
    if n == 0 then Ok([])
    else
      match TypeArgumentItems(clean, t, n - 1)
      case Fail(f) => Fail(f)
      case Ok(items) =>
        match TypeReference(clean, t.typeArguments[n - 1])
        case Fail(f) => Fail(f)
        case Ok(item) => Ok(items + [item])
  }

  /** Once one of the first `k` arguments fails, every longer prefix fails the same way. */
  lemma {:induction false} TypeArgumentFailurePersists(clean: string -> string, t: TypeSymbol, k: nat, n: nat)
    requires k <= n <= |t.typeArguments|
    requires TypeArgumentItems(clean, t, k).Fail?
    ensures TypeArgumentItems(clean, t, n) == TypeArgumentItems(clean, t, k)
    decreases n
  {
    if n > k {
      TypeArgumentFailurePersists(clean, t, k, n - 1);
    }
  }

  /** WriteTemplateDefinitionRecusive, threading the by-reference flag. */
  method WriteTemplateDefinitionRecursive(clean: string -> string, t: TypeSymbol, anyTypeParam: bool)
    returns (r: Result<string>, anyAfter: bool)
    ensures TemplateArgumentItems(clean, t).Fail? ==> r == Fail(TemplateArgumentItems(clean, t).failure)
    ensures TemplateArgumentItems(clean, t).Ok? ==>
      && anyAfter == (anyTypeParam || |TemplateArgumentItems(clean, t).value| > 0)
      && r == Ok(FlaggedJoin(anyTypeParam, TemplateArgumentItems(clean, t).value, ", "))
    decreases t
  {
    var outer: seq<string> := [];
    var text := "";
    anyAfter := anyTypeParam;
    if t.containingType.Some? {
      var outerText;
      outerText, anyAfter := WriteTemplateDefinitionRecursive(clean, t.containingType.value, anyTypeParam);
      if outerText.Fail? {
        return outerText, anyAfter;
      }
      outer := TemplateArgumentItems(clean, t.containingType.value).value;
      text := outerText.value;
    }
    assert outer + [] == outer;
    var own: seq<string> := [];
    for i := 0 to |t.typeArguments|
      invariant TypeArgumentItems(clean, t, i) == Ok(own)
      invariant anyAfter == (anyTypeParam || |outer| + i > 0)
      invariant text == FlaggedJoin(anyTypeParam, outer + own, ", ")
    {
      var separator := if anyAfter then ", " else "";
      anyAfter := true;
      var item := TypeReference(clean, t.typeArguments[i]);
      if item.Fail? {
        TypeArgumentFailurePersists(clean, t, i + 1, |t.typeArguments|);
        return Fail(item.failure), anyAfter;
      }
      FlaggedJoinAfter(anyTypeParam, outer, own, item.value, ", ");
      own := own + [item.value];
      text := text + separator + item.value;
    }
    r := Ok(text);
  }

  /** WriteTemplateDefinition. */
  method WriteTemplateDefinition(clean: string -> string, t: TypeSymbol) returns (r: Result<string>)
    ensures r == TemplateDefinition(clean, t)
  {
    var items, _ := WriteTemplateDefinitionRecursive(clean, t, false);
    if items.Fail? {
      return items;
    }
    assert items.value == Join(TemplateArgumentItems(clean, t).value, ", ");
    r := Ok("<" + items.value + ">");
  }

  // ---------------------------------------------------------------------------
  // Name suffixes (WriteTypeSuffix)
  // ---------------------------------------------------------------------------

  /** WriteTypeSuffix: a name fragment for a type. */
  function TypeSuffix(clean: string -> string, t: TypeSymbol): string
    decreases t
  {
    var special := SpecialTypeSpelling(t.specialType, true);
    if t.isValueType && special.Some? then special.value
    else
      match t.kind
      case ArrayType(elementType) => TypeSuffix(clean, elementType) + "Array"
      case PointerType(pointedAtType) => TypeSuffix(clean, pointedAtType) + "Ptr"
      case TypeParameter => clean(t.metadataName)
      case _ => TypeName(clean, t)
  }
}
