/**
  Which type texts can contain a brace or a line break: none, as long as the
  mangler's output and the raw namespace names contain none.  The header's
  block structure rests on this.
*/
module PlainText {
  import opened Symbols
  import opened Text
  import opened TypeWriter

  /** No brace and no line break. */
  predicate Plain(s: string)
  {
    '{' !in s && '}' !in s && '\n' !in s
  }

  /** The mangler never produces a brace or a line break. */
  ghost predicate CleanIsPlain(clean: string -> string)
  {
    forall s :: Plain(clean(s))
  }

  predicate NodesPlain(nodes: seq<NamespaceNode>)
  {
    forall i :: 0 <= i < |nodes| ==> nodes[i].Namespace? ==> Plain(nodes[i].metadataName)
  }

  /** Every raw namespace name reachable from `t` is plain. */
  predicate PlainNames(t: TypeSymbol)
    decreases t
  {
    && (t.containingNamespace.Some? ==> NodesPlain(t.containingNamespace.value))
    && (t.containingType.Some? ==> PlainNames(t.containingType.value))
    && (forall i :: 0 <= i < |t.typeArguments| ==> PlainNames(t.typeArguments[i]))
    && match t.kind
       case ArrayType(elementType) => PlainNames(elementType)
       case PointerType(pointedAtType) => PlainNames(pointedAtType)
       case Enum(underlyingType) => PlainNames(underlyingType)
       case _ => true
  }

  lemma {:induction false} JoinPlain(items: seq<string>, sep: string)
    requires Plain(sep)
    requires forall i :: 0 <= i < |items| ==> Plain(items[i])
    ensures Plain(Join(items, sep))
  {
    if |items| > 1 {
      JoinPlain(items[1..], sep);
    }
  }

  lemma SpellingPlain(special: SpecialType, cleanName: bool)
    requires SpecialTypeSpelling(special, cleanName).Some?
    ensures Plain(SpecialTypeSpelling(special, cleanName).value)
  {
    match special
    case SystemVoid | SystemBoolean | SystemChar | SystemSingle | SystemDouble => WordSpellingsPlain();
    case SystemSByte | SystemByte | SystemInt16 | SystemUInt16 => NarrowIntegerSpellingsPlain();
    case SystemInt32 | SystemUInt32 | SystemInt64 | SystemUInt64 => WideIntegerSpellingsPlain();
    case SystemIntPtr | SystemUIntPtr => PointerSpellingsPlain();
    case _ =>
  }

  lemma WordSpellingsPlain()
    ensures Plain("void") && Plain("bool") && Plain("wchar_t") && Plain("float") && Plain("double")
  {
  }

  lemma NarrowIntegerSpellingsPlain()
    ensures Plain("int8_t") && Plain("uint8_t") && Plain("int16_t") && Plain("uint16_t")
  {
  }

  lemma WideIntegerSpellingsPlain()
    ensures Plain("int32_t") && Plain("uint32_t") && Plain("int64_t") && Plain("uint64_t")
  {
  }

  lemma PointerSpellingsPlain()
    ensures Plain("intptr_t") && Plain("uintptr_t") && Plain("__val<intptr_t>") && Plain("__val<uintptr_t>")
  {
  }

  lemma NamespaceTextPlain(clean: string -> string, nodes: seq<NamespaceNode>)
    requires CleanIsPlain(clean) && NodesPlain(nodes)
    ensures Plain(NamespaceText(clean, nodes))
  {
    var names := NamespaceNames(clean, nodes);
    forall i | 0 <= i < |names| ensures Plain(names[i]) {
      if nodes[i].GlobalNamespace? {
        assert Plain(clean(nodes[i].assemblyMetadataName));
      }
    }
    JoinPlain(names, "::");
  }

  lemma {:induction false} TypeNamePlain(clean: string -> string, t: TypeSymbol)
    requires CleanIsPlain(clean)
    ensures Plain(TypeName(clean, t))
    decreases t
  {
    assert Plain(clean(t.metadataName));
    if t.containingType.Some? {
      TypeNamePlain(clean, t.containingType.value);
    }
  }

  lemma {:induction false} TemplateParameterItemsPlain(clean: string -> string, t: TypeSymbol)
    requires CleanIsPlain(clean)
    ensures forall i :: 0 <= i < |TemplateParameterItems(clean, t)| ==> Plain(TemplateParameterItems(clean, t)[i])
    decreases t
  {
    var own := TemplateParameterNames(clean, t.typeParameters);
    forall i | 0 <= i < |own| ensures Plain(own[i]) {
      assert Plain(clean(t.typeParameters[i].metadataName));
    }
    if t.containingType.Some? {
      TemplateParameterItemsPlain(clean, t.containingType.value);
    }
  }

  lemma TemplateDeclarationPlain(clean: string -> string, t: TypeSymbol)
    requires CleanIsPlain(clean)
    ensures Plain(TemplateDeclaration(clean, t))
  {
    TemplateParameterItemsPlain(clean, t);
    JoinPlain(TemplateParameterItems(clean, t), ", ");
  }

  /** WriteType never writes a brace or a line break of its own. */
  lemma {:induction false} TypeReferencePlain(clean: string -> string, t: TypeSymbol)
    requires CleanIsPlain(clean) && PlainNames(t)
    ensures TypeReference(clean, t).Ok? ==> Plain(TypeReference(clean, t).value)
    decreases t, 3
  {
    var special := SpecialTypeSpelling(t.specialType, false);
    if t.isValueType && special.Some? {
      SpellingPlain(t.specialType, false);
    } else {
      match t.kind
      case ArrayType(elementType) => TypeReferencePlain(clean, elementType);
      case Delegate | Interface | Class => TypeFullNamePlain(clean, t);
      case Enum(underlyingType) =>
        TypeFullNamePlain(clean, t);
        TypeReferencePlain(clean, underlyingType);
      case PointerType(pointedAtType) => TypeReferencePlain(clean, pointedAtType);
      case Struct => TypeFullNamePlain(clean, t);
      case TypeParameter => assert Plain(clean(t.metadataName));
      case _ =>
    }
  }

  lemma {:induction false} TypeFullNamePlain(clean: string -> string, t: TypeSymbol)
    requires CleanIsPlain(clean) && PlainNames(t)
    ensures TypeFullName(clean, t).Ok? ==> Plain(TypeFullName(clean, t).value)
    decreases t, 2
  {
    if t.containingNamespace.Some? {
      NamespaceTextPlain(clean, t.containingNamespace.value);
    }
    TypeNamePlain(clean, t);
    if t.isGenericType {
      TemplateArgumentsPlain(clean, t);
      var items := TemplateArgumentItems(clean, t);
      if items.Ok? {
        JoinPlain(items.value, ", ");
      }
    }
  }

  lemma {:induction false} TemplateArgumentsPlain(clean: string -> string, t: TypeSymbol)
    requires CleanIsPlain(clean) && PlainNames(t)
    ensures TemplateArgumentItems(clean, t).Ok? ==>
      forall i :: 0 <= i < |TemplateArgumentItems(clean, t).value| ==> Plain(TemplateArgumentItems(clean, t).value[i])
    decreases t, 1
  {
    if t.containingType.Some? {
      TemplateArgumentsPlain(clean, t.containingType.value);
    }
    TypeArgumentItemsPlain(clean, t, |t.typeArguments|);
  }

  lemma {:induction false} TypeArgumentItemsPlain(clean: string -> string, t: TypeSymbol, n: nat)
    requires CleanIsPlain(clean) && PlainNames(t)
    requires n <= |t.typeArguments|
    ensures TypeArgumentItems(clean, t, n).Ok? ==>
      forall i :: 0 <= i < n ==> Plain(TypeArgumentItems(clean, t, n).value[i])
    decreases t, 0, n
  {
    if n > 0 {
      TypeArgumentItemsPlain(clean, t, n - 1);
      TypeReferencePlain(clean, t.typeArguments[n - 1]);
    }
  }
}
