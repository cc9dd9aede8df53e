/**
  What the type writer promises: the exact reference form of each type kind,
  exactly which types can be written at all, the clean name suffixes, and the
  lock-step of template parameter and argument lists along the chain of
  containing types.
*/
module TypeLemmas {
  import opened Symbols
  import opened Text
  import opened TypeWriter


  /** The names WriteNamespace joins for an enumerated chain, which starts at
      the global namespace: the cleaned assembly name first, then each
      namespace by its raw metadata name. */
  lemma NamespaceNamesOfChain(clean: string -> string, nodes: seq<NamespaceNode>)
    requires |nodes| > 0 && nodes[0].GlobalNamespace?
    requires forall i :: 1 <= i < |nodes| ==> nodes[i].Namespace?
    ensures |NamespaceNames(clean, nodes)| == |nodes|
    ensures NamespaceNames(clean, nodes)[0] == clean(nodes[0].assemblyMetadataName)
    ensures forall i :: 1 <= i < |nodes| ==> NamespaceNames(clean, nodes)[i] == nodes[i].metadataName
  {
  }

  // ---------------------------------------------------------------------------
  // Reference form per kind
  // ---------------------------------------------------------------------------

  /** A built-in value type is written with its table spelling, pointer-sized
      integers wrapped in `__val<...>`. */
  lemma BuiltinReference(clean: string -> string, t: TypeSymbol)
    requires IsBuiltin(t)
    ensures TypeReference(clean, t) == Ok(
      if IsPointerSized(t.specialType) then "__val<" + BUILTIN_SPELLINGS[t.specialType] + ">"
      else BUILTIN_SPELLINGS[t.specialType])
  {
  }

  /** Every other type is written by its kind. */
  lemma TypeReferenceByKind(clean: string -> string, t: TypeSymbol)
    requires !IsBuiltin(t)
    ensures t.kind.ArrayType? ==>
      TypeReference(clean, t) == Wrapped(TypeReference(clean, t.kind.elementType), "__array<", ">*")
    ensures t.kind.PointerType? ==>
      TypeReference(clean, t) == Wrapped(TypeReference(clean, t.kind.pointedAtType), "", "*")
    ensures t.kind.Class? || t.kind.Interface? || t.kind.Delegate? ==>
      TypeReference(clean, t) == Wrapped(TypeFullName(clean, t), "", if t.isReferenceType then "*" else "")
    ensures t.kind.Struct? ==> TypeReference(clean, t) == TypeFullName(clean, t)
    ensures t.kind.Enum? && TypeFullName(clean, t).Ok? ==>
      TypeReference(clean, t)
      == Wrapped(TypeReference(clean, t.kind.enumUnderlyingType), "__enum<" + TypeFullName(clean, t).value + ", ", ">")
    ensures t.kind.Enum? && TypeFullName(clean, t).Fail? ==> TypeReference(clean, t) == TypeFullName(clean, t)
    ensures t.kind.TypeParameter? ==> TypeReference(clean, t) == Ok(clean(t.metadataName))
    ensures t.kind.Unknown? || t.kind.DynamicType? || t.kind.Error? || t.kind.Module? || t.kind.Submission? ==>
      TypeReference(clean, t) == Fail(NotImplemented)
    ensures t.kind.UnlistedKind? ==> TypeReference(clean, t) == Fail(ArgumentOutOfRange)
  {
    match t.kind
    case PointerType(pointedAtType) =>
      if TypeReference(clean, pointedAtType).Ok? {
        var pointee := TypeReference(clean, pointedAtType).value;
        assert "" + pointee + "*" == pointee + "*";
      }
    case Delegate | Interface | Class =>
      if TypeFullName(clean, t).Ok? {
        var name := TypeFullName(clean, t).value;
        var star := if t.isReferenceType then "*" else "";
        assert "" + name + star == name + star;
      }
    case _ =>
  }

  /** The full name: `ns::` exactly when there is a containing namespace, the
      nested name, and the argument list exactly when the type is generic. */
  lemma TypeFullNameShape(clean: string -> string, t: TypeSymbol)
    ensures var prefix := if t.containingNamespace.Some? then NamespaceText(clean, t.containingNamespace.value) + "::" else "";
      TypeFullName(clean, t) ==
        if t.isGenericType then Wrapped(TemplateDefinition(clean, t), prefix + TypeName(clean, t), "")
        else Ok(prefix + TypeName(clean, t))
  {
    if t.isGenericType && TemplateDefinition(clean, t).Ok? {
      var arguments := TemplateDefinition(clean, t).value;
      var prefix := if t.containingNamespace.Some? then NamespaceText(clean, t.containingNamespace.value) + "::" else "";
      assert prefix + TypeName(clean, t) + arguments + "" == prefix + TypeName(clean, t) + arguments;
    }
  }

  // ---------------------------------------------------------------------------
  // Which types can be written
  // ---------------------------------------------------------------------------

  /** The types WriteType returns normally for, defined by what each kind reaches. */
  predicate Supported(t: TypeSymbol)
    decreases t, 2
  {
    if IsBuiltin(t) then true
    else
      match t.kind
      case ArrayType(elementType) => Supported(elementType)
      case Delegate | Interface | Class | Struct => FullNameSupported(t)
      case Enum(underlyingType) => FullNameSupported(t) && Supported(underlyingType)
      case PointerType(pointedAtType) => Supported(pointedAtType)
      case TypeParameter => true
      case _ => false
  }

  predicate FullNameSupported(t: TypeSymbol)
    decreases t, 1
  {
    t.isGenericType ==> ArgumentsSupported(t)
  }

  /** Every type argument along the chain of containing types is supported. */
  predicate ArgumentsSupported(t: TypeSymbol)
    decreases t, 0
  {
    && (t.containingType.Some? ==> ArgumentsSupported(t.containingType.value))
    && forall i :: 0 <= i < |t.typeArguments| ==> Supported(t.typeArguments[i])
  }

  /** WriteType returns normally exactly for the supported types. */
  lemma {:induction false} TypeReferenceOkIffSupported(clean: string -> string, t: TypeSymbol)
    ensures TypeReference(clean, t).Ok? <==> Supported(t)
    decreases t, 3
  {
    if !IsBuiltin(t) {
      match t.kind
      case ArrayType(elementType) => TypeReferenceOkIffSupported(clean, elementType);
      case Delegate | Interface | Class | Struct => TypeFullNameOkIffSupported(clean, t);
      case Enum(underlyingType) =>
        TypeFullNameOkIffSupported(clean, t);
        TypeReferenceOkIffSupported(clean, underlyingType);
      case PointerType(pointedAtType) => TypeReferenceOkIffSupported(clean, pointedAtType);
      case _ =>
    }
  }

  lemma {:induction false} TypeFullNameOkIffSupported(clean: string -> string, t: TypeSymbol)
    ensures TypeFullName(clean, t).Ok? <==> FullNameSupported(t)
    decreases t, 2
  {
    if t.isGenericType {
      TemplateArgumentsOkIffSupported(clean, t);
    }
  }

  lemma {:induction false} TemplateArgumentsOkIffSupported(clean: string -> string, t: TypeSymbol)
    ensures TemplateArgumentItems(clean, t).Ok? <==> ArgumentsSupported(t)
    decreases t, 1
  {
    if t.containingType.Some? {
      TemplateArgumentsOkIffSupported(clean, t.containingType.value);
    }
    OwnArgumentsOkIffSupported(clean, t, |t.typeArguments|);
  }

  lemma {:induction false} OwnArgumentsOkIffSupported(clean: string -> string, t: TypeSymbol, n: nat)
    requires n <= |t.typeArguments|
    ensures TypeArgumentItems(clean, t, n).Ok? <==> forall i :: 0 <= i < n ==> Supported(t.typeArguments[i])
    decreases t, 0, n
  {
    if n > 0 {
      OwnArgumentsOkIffSupported(clean, t, n - 1);
      TypeReferenceOkIffSupported(clean, t.typeArguments[n - 1]);
    }
  }

  // ---------------------------------------------------------------------------
  // Name suffixes
  // ---------------------------------------------------------------------------

  /** Suffixes use the clean built-in spellings and the `Array` / `Ptr` markers. */
  lemma TypeSuffixByKind(clean: string -> string, t: TypeSymbol)
    ensures IsBuiltin(t) ==> TypeSuffix(clean, t) == BUILTIN_SPELLINGS[t.specialType]
    ensures !IsBuiltin(t) && t.kind.ArrayType? ==> TypeSuffix(clean, t) == TypeSuffix(clean, t.kind.elementType) + "Array"
    ensures !IsBuiltin(t) && t.kind.PointerType? ==> TypeSuffix(clean, t) == TypeSuffix(clean, t.kind.pointedAtType) + "Ptr"
    ensures !IsBuiltin(t) && t.kind.TypeParameter? ==> TypeSuffix(clean, t) == clean(t.metadataName)
    ensures !IsBuiltin(t) && !t.kind.ArrayType? && !t.kind.PointerType? && !t.kind.TypeParameter? ==>
      TypeSuffix(clean, t) == TypeName(clean, t)
  {
  }

  /** Two built-in value types with different tags have different suffixes. */
  lemma BuiltinSuffixesDistinct(clean: string -> string, a: TypeSymbol, b: TypeSymbol)
    requires IsBuiltin(a) && IsBuiltin(b) && a.specialType != b.specialType
    ensures TypeSuffix(clean, a) != TypeSuffix(clean, b)
  {
    SpecialTypeSpellingsDistinct(a.specialType, b.specialType, true);
  }

  // ---------------------------------------------------------------------------
  // Template lists follow the chain of containing types
  // ---------------------------------------------------------------------------

  /** The type parameters of a chain of types, outermost level first. */
  function ChainTypeParameters(chain: seq<TypeSymbol>): seq<TypeParameterSymbol>
  {
    if |chain| == 0 then []
    else ChainTypeParameters(chain[..|chain| - 1]) + chain[|chain| - 1].typeParameters
  }

  /** The type arguments of a chain of types, outermost level first. */
  function ChainTypeArguments(chain: seq<TypeSymbol>): seq<TypeSymbol>
  {
    if |chain| == 0 then []
    else ChainTypeArguments(chain[..|chain| - 1]) + chain[|chain| - 1].typeArguments
  }

  /** Parameter `i` of a level bound to argument `i` of the same level. */
  function LevelBindings(level: TypeSymbol): (bindings: seq<(TypeParameterSymbol, TypeSymbol)>)
    requires |level.typeParameters| == |level.typeArguments|
    ensures |bindings| == |level.typeParameters|
    ensures forall i :: 0 <= i < |bindings| ==> bindings[i] == (level.typeParameters[i], level.typeArguments[i])
  {
    seq(|level.typeParameters|, i requires 0 <= i < |level.typeParameters| =>
      (level.typeParameters[i], level.typeArguments[i]))
  }

  /** Every level of the chain has as many parameters as arguments. */
  predicate LevelsBalanced(chain: seq<TypeSymbol>)
  {
    forall k :: 0 <= k < |chain| ==> |chain[k].typeParameters| == |chain[k].typeArguments|
  }

  /** The parameter/argument bindings of a balanced chain, outermost level first. */
  function ChainBindings(chain: seq<TypeSymbol>): seq<(TypeParameterSymbol, TypeSymbol)>
    requires LevelsBalanced(chain)
  {
    if |chain| == 0 then []
    else ChainBindings(chain[..|chain| - 1]) + LevelBindings(chain[|chain| - 1])
  }

  /** In a balanced chain, the i-th parameter and the i-th argument are bound to each other. */
  lemma {:induction false} ChainBindingsAlign(chain: seq<TypeSymbol>)
    requires LevelsBalanced(chain)
    ensures |ChainTypeParameters(chain)| == |ChainBindings(chain)| == |ChainTypeArguments(chain)|
    ensures forall i :: 0 <= i < |ChainBindings(chain)| ==>
      ChainBindings(chain)[i] == (ChainTypeParameters(chain)[i], ChainTypeArguments(chain)[i])
  {
    if |chain| > 0 {
      var init := chain[..|chain| - 1];
      assert LevelsBalanced(init) by {
        forall k | 0 <= k < |init| ensures |init[k].typeParameters| == |init[k].typeArguments| {
          assert init[k] == chain[k];
        }
      }
      ChainBindingsAlign(init);
    }
  }

  /** The references of a list of types; the first failing one decides. */
  function TypeReferences(clean: string -> string, ts: seq<TypeSymbol>): (r: Result<seq<string>>)
    ensures r.Ok? ==> |r.value| == |ts| && forall i :: 0 <= i < |ts| ==> TypeReference(clean, ts[i]) == Ok(r.value[i])
  {
    if |ts| == 0 then Ok([])
    else
      match TypeReferences(clean, ts[..|ts| - 1])
      case Fail(f) => Fail(f)
      case Ok(items) =>
        match TypeReference(clean, ts[|ts| - 1])
        case Fail(f) => Fail(f)
        case Ok(item) => Ok(items + [item])
  }

  /** Two results of item lists, one after the other; the first failure decides. */
  function AppendResults(a: Result<seq<string>>, b: Result<seq<string>>): Result<seq<string>>
  {
    match a
    case Fail(f) => Fail(f)
    case Ok(xs) =>
      match b
      case Fail(f) => Fail(f)
      case Ok(ys) => Ok(xs + ys)
  }

  lemma {:induction false} TypeReferencesAppend(clean: string -> string, xs: seq<TypeSymbol>, ys: seq<TypeSymbol>)
    ensures TypeReferences(clean, xs + ys) == AppendResults(TypeReferences(clean, xs), TypeReferences(clean, ys))
    decreases |ys|
  {
    if |ys| == 0 {
      assert xs + ys == xs;
      if TypeReferences(clean, xs).Ok? {
        assert TypeReferences(clean, xs).value + [] == TypeReferences(clean, xs).value;
      }
    } else {
      var init := ys[..|ys| - 1];
      var last := ys[|ys| - 1];
      assert (xs + ys)[..|xs + ys| - 1] == xs + init;
      assert (xs + ys)[|xs + ys| - 1] == last;
      TypeReferencesAppend(clean, xs, init);
      match TypeReferences(clean, xs)
      case Fail(_) =>
      case Ok(a) =>
        match TypeReferences(clean, init)
        case Fail(_) =>
        case Ok(b) =>
          match TypeReference(clean, last)
          case Fail(_) =>
          case Ok(c) => assert a + (b + [c]) == (a + b) + [c];
    }
  }

  lemma {:induction false} OwnArgumentsAreReferences(clean: string -> string, t: TypeSymbol, n: nat)
    requires n <= |t.typeArguments|
    ensures TypeArgumentItems(clean, t, n) == TypeReferences(clean, t.typeArguments[..n])
  {
    if n > 0 {
      OwnArgumentsAreReferences(clean, t, n - 1);
      assert t.typeArguments[..n][..n - 1] == t.typeArguments[..n - 1];
    }
  }

  lemma ChainOfOuter(t: TypeSymbol)
    requires t.containingType.Some?
    ensures ContainingChain(t) == ContainingChain(t.containingType.value) + [t]
    ensures ContainingChain(t)[..|ContainingChain(t)| - 1] == ContainingChain(t.containingType.value)
  {
  }

  lemma TemplateParameterNamesAppend(clean: string -> string, xs: seq<TypeParameterSymbol>, ys: seq<TypeParameterSymbol>)
    ensures TemplateParameterNames(clean, xs + ys) == TemplateParameterNames(clean, xs) + TemplateParameterNames(clean, ys)
  {
    var l := TemplateParameterNames(clean, xs + ys);
    var r := TemplateParameterNames(clean, xs) + TemplateParameterNames(clean, ys);
    assert |l| == |r|;
    forall i | 0 <= i < |l| ensures l[i] == r[i] {
      if i < |xs| {
        assert (xs + ys)[i] == xs[i];
      } else {
        assert (xs + ys)[i] == ys[i - |xs|];
      }
    }
  }

  /** The declaration lists the chain's parameters, outermost level first. */
  lemma {:induction false} TemplateParametersFollowChain(clean: string -> string, t: TypeSymbol)
    ensures TemplateParameterItems(clean, t) == TemplateParameterNames(clean, ChainTypeParameters(ContainingChain(t)))
    decreases t
  {
    var own := TemplateParameterNames(clean, t.typeParameters);
    if t.containingType.Some? {
      var outer := t.containingType.value;
      TemplateParametersFollowChain(clean, outer);
      ChainOfOuter(t);
      var outerParams := ChainTypeParameters(ContainingChain(outer));
      assert ChainTypeParameters(ContainingChain(t)) == outerParams + t.typeParameters;
      TemplateParameterNamesAppend(clean, outerParams, t.typeParameters);
    } else {
      assert ContainingChain(t) == [t];
      assert ContainingChain(t)[..0] == [];
      assert ChainTypeParameters(ContainingChain(t)) == t.typeParameters;
    }
  }

  /** The argument list lists the chain's arguments, outermost level first. */
  lemma {:induction false} TemplateArgumentsFollowChain(clean: string -> string, t: TypeSymbol)
    ensures TemplateArgumentItems(clean, t) == TypeReferences(clean, ChainTypeArguments(ContainingChain(t)))
    decreases t
  {
    OwnArgumentsAreReferences(clean, t, |t.typeArguments|);
    assert t.typeArguments[..|t.typeArguments|] == t.typeArguments;
    if t.containingType.Some? {
      var outer := t.containingType.value;
      TemplateArgumentsFollowChain(clean, outer);
      ChainOfOuter(t);
      var outerArguments := ChainTypeArguments(ContainingChain(outer));
      assert ChainTypeArguments(ContainingChain(t)) == outerArguments + t.typeArguments;
      TypeReferencesAppend(clean, outerArguments, t.typeArguments);
    } else {
      assert ContainingChain(t) == [t];
      assert ContainingChain(t)[..0] == [];
      assert ChainTypeArguments(ContainingChain(t)) == [] + t.typeArguments;
      TypeReferencesAppend(clean, [], t.typeArguments);
    }
  }

  /** Template declaration and template argument lists agree: given as many
      arguments as parameters on every level, both list the same number of
      items, and item `i` of each comes from the same binding. */
  lemma TemplateListsAligned(clean: string -> string, t: TypeSymbol)
    requires LevelsBalanced(ContainingChain(t))
    ensures var bindings := ChainBindings(ContainingChain(t));
      && |TemplateParameterItems(clean, t)| == |bindings|
      && (forall i :: 0 <= i < |bindings| ==>
            TemplateParameterItems(clean, t)[i] == TemplateParameterName(clean, bindings[i].0))
      && (TemplateArgumentItems(clean, t).Ok? ==>
            && |TemplateArgumentItems(clean, t).value| == |bindings|
            && forall i :: 0 <= i < |bindings| ==>
                 TypeReference(clean, bindings[i].1) == Ok(TemplateArgumentItems(clean, t).value[i]))
  {
    TemplateParametersFollowChain(clean, t);
    TemplateArgumentsFollowChain(clean, t);
    ChainBindingsAlign(ContainingChain(t));
  }
}
