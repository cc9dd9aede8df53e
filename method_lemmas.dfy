/**
  Properties of the method-signature emitter: when a declaration can be
  written at all, how the in-class declaration and the out-of-class definition
  relate, and which modifiers and trailers a method gets.
*/
module MethodLemmas {
  import opened Symbols
  import opened Text
  import opened TypeWriter
  import opened TypeLemmas
  import opened MethodWriter

  /** Both placements write the same parameter types in the same order; out
      of class every item is followed by a blank and the cleaned parameter
      name.  One placement fails exactly when the other does, with the same
      exception. */
  lemma {:induction false} ParameterItemsAcrossPlacement(clean: string -> string, ps: seq<ParameterSymbol>)
    ensures ParameterItems(clean, ps, true).Ok? <==> ParameterItems(clean, ps, false).Ok?
    ensures ParameterItems(clean, ps, true).Fail? ==>
      ParameterItems(clean, ps, true) == ParameterItems(clean, ps, false)
    ensures ParameterItems(clean, ps, true).Ok? ==>
      forall i :: 0 <= i < |ps| ==>
        Ok(ParameterItems(clean, ps, true).value[i]) == TypeReference(clean, ps[i].parameterType) &&
        ParameterItems(clean, ps, false).value[i]
          == ParameterItems(clean, ps, true).value[i] + " " + clean(ps[i].metadataName)
  {
    if |ps| > 0 {
      var init := ps[..|ps| - 1];
      var last := ps[|ps| - 1];
      ParameterItemsAcrossPlacement(clean, init);
      var reference := TypeReference(clean, last.parameterType);
      if reference.Ok? {
        assert ParameterItem(clean, last, true) == Ok(reference.value) by {
          assert "" + reference.value + "" == reference.value;
        }
        assert ParameterItem(clean, last, false) == Ok(reference.value + " " + clean(last.metadataName)) by {
          assert "" + reference.value + (" " + clean(last.metadataName))
              == reference.value + " " + clean(last.metadataName);
        }
      }
    }
  }

  /** A parameter list can be written exactly when every parameter type can
      be referenced. */
  lemma {:induction false} ParameterItemsOkIffSupported(clean: string -> string, ps: seq<ParameterSymbol>, inClass: bool)
    ensures ParameterItems(clean, ps, inClass).Ok? <==>
      forall i :: 0 <= i < |ps| ==> Supported(ps[i].parameterType)
  {
    if |ps| > 0 {
      var init := ps[..|ps| - 1];
      ParameterItemsOkIffSupported(clean, init, inClass);
      TypeReferenceOkIffSupported(clean, ps[|ps| - 1].parameterType);
      assert forall i :: 0 <= i < |init| ==> init[i] == ps[i];
    }
  }

  /** WriteMethodDeclaration throws exactly when the return type (for a
      non-constructor that returns a value) or some parameter type cannot be
      referenced; the placement never decides it. */
  lemma MethodDeclarationOkIffSupported(clean: string -> string, m: MethodSymbol, inClass: bool)
    ensures MethodDeclaration(clean, m, inClass).Ok? <==>
      (m.methodKind == Constructor || m.returnsVoid || Supported(m.returnType)) &&
      forall i :: 0 <= i < |m.parameters| ==> Supported(m.parameters[i].parameterType)
    ensures MethodDeclaration(clean, m, true).Ok? <==> MethodDeclaration(clean, m, false).Ok?
    ensures MethodDeclaration(clean, m, true).Fail? ==>
      MethodDeclaration(clean, m, true).failure == MethodDeclaration(clean, m, false).failure
  {
    TypeReferenceOkIffSupported(clean, m.returnType);
    ParameterItemsOkIffSupported(clean, m.parameters, inClass);
    ParameterItemsAcrossPlacement(clean, m.parameters);
  }

  /** The out-of-class definition has no modifiers and no trailer: it is the
      return part, the `ns::Type::` qualifier, the name and the named
      parameters. */
  lemma OutOfClassDefinition(clean: string -> string, m: MethodSymbol)
    requires MethodDeclaration(clean, m, false).Ok?
    ensures ReturnPart(clean, m).Ok? && ParameterItems(clean, m.parameters, false).Ok?
    ensures MethodDeclaration(clean, m, false).value ==
      (if m.isGenericMethod then MethodTemplateDeclaration(clean, m) else "")
      + ReturnPart(clean, m).value
      + ((if m.containingNamespace.Some? then NamespaceText(clean, m.containingNamespace.value) + "::" else "")
         + TypeName(clean, m.receiverType) + "::")
      + DeclaredName(clean, m)
      + "(" + Join(ParameterItems(clean, m.parameters, false).value, ", ") + ")"
  {
    var preamble := if m.isGenericMethod then MethodTemplateDeclaration(clean, m) else "";
    var returnPart := ReturnPart(clean, m).value;
    var parameters := ParameterList(clean, m.parameters, false).value;
    var text := preamble + "" + returnPart + Qualifier(clean, m, false) + DeclaredName(clean, m)
              + "(" + parameters + ")";
    assert MethodDeclaration(clean, m, false).value == text + "";
    assert text + "" == text;
    assert preamble + "" == preamble;
  }

  /** The virtuality modifier in class: `virtual ` for every virtual, override
      or abstract method (commented out for a generic one) and nothing else;
      `static ` comes first. */
  lemma ModifiersInClass(m: MethodSymbol)
    ensures !m.isStatic && !IsVirtualLike(m) <==> Modifiers(m, true) == ""
    ensures !m.isGenericMethod && IsVirtualLike(m) && !m.isStatic <==> Modifiers(m, true) == "virtual "
    ensures m.isGenericMethod && IsVirtualLike(m) && !m.isStatic <==> Modifiers(m, true) == "/*virtual */"
    ensures m.isStatic && !IsVirtualLike(m) <==> Modifiers(m, true) == "static "
  {
  }

  /** The trailer in class: ` override` wins over ` = 0`; a generic method
      gets its trailer commented out, so no generic method is declared pure or
      overriding. */
  lemma TrailerInClass(m: MethodSymbol)
    ensures Trailer(m, true) == " override" <==> !m.isGenericMethod && m.isOverride
    ensures Trailer(m, true) == " = 0" <==> !m.isGenericMethod && !m.isOverride && m.isAbstract
    ensures Trailer(m, true) == "" <==> !m.isGenericMethod && !m.isOverride && !m.isAbstract
    ensures m.isGenericMethod ==> Trailer(m, true)[..2] == "/*" && Trailer(m, true)[|Trailer(m, true)| - 2..] == "*/"
  {
    if m.isGenericMethod {
      assert Trailer(m, true)[0] == '/';
    }
  }

  /** A constructor has no return part and is named after its receiver type. */
  lemma ConstructorDeclaration(clean: string -> string, m: MethodSymbol)
    requires m.methodKind == Constructor
    ensures ReturnPart(clean, m) == Ok("")
    ensures DeclaredName(clean, m) == TypeName(clean, m.receiverType)
  {
  }

  /** A method that returns nothing is declared `void `, whatever its
      return-type symbol. */
  lemma VoidReturn(clean: string -> string, m: MethodSymbol)
    requires m.methodKind != Constructor && m.returnsVoid
    ensures ReturnPart(clean, m) == Ok("void ")
  {
  }

  /** Two explicit conversion operators get the same name exactly when their
      return types have the same suffix: the suffix is what tells them apart. */
  lemma ExplicitConversionNames(clean: string -> string, a: MethodSymbol, b: MethodSymbol)
    requires a.metadataName == "op_Explicit" && b.metadataName == "op_Explicit"
    ensures MethodName(clean, a) == MethodName(clean, b) <==>
      TypeSuffix(clean, a.returnType) == TypeSuffix(clean, b.returnType)
  {
    var p := clean("op_Explicit") + "_";
    assert MethodName(clean, a) == p + TypeSuffix(clean, a.returnType);
    assert MethodName(clean, b) == p + TypeSuffix(clean, b.returnType);
    if MethodName(clean, a) == MethodName(clean, b) {
      assert TypeSuffix(clean, a.returnType) == MethodName(clean, a)[|p|..];
    }
  }

  /** Conversions to two different built-in value types get different names. */
  lemma BuiltinConversionsDistinct(clean: string -> string, a: MethodSymbol, b: MethodSymbol)
    requires a.metadataName == "op_Explicit" && b.metadataName == "op_Explicit"
    requires IsBuiltin(a.returnType) && IsBuiltin(b.returnType)
    requires a.returnType.specialType != b.returnType.specialType
    ensures MethodName(clean, a) != MethodName(clean, b)
  {
    BuiltinSuffixesDistinct(clean, a.returnType, b.returnType);
    ExplicitConversionNames(clean, a, b);
  }

  /** Any other method's name is its cleaned metadata name. */
  lemma OrdinaryMethodName(clean: string -> string, m: MethodSymbol)
    requires m.metadataName != "op_Explicit"
    ensures MethodName(clean, m) == clean(m.metadataName)
  {
    assert clean(m.metadataName) + "" == clean(m.metadataName);
  }

  /** In class, a non-generic instance override is declared both `virtual `
      and ` override`. */
  lemma OverrideDeclaredVirtual(clean: string -> string, m: MethodSymbol)
    requires m.isOverride && !m.isGenericMethod && !m.isStatic
    requires MethodDeclaration(clean, m, true).Ok?
    ensures var text := MethodDeclaration(clean, m, true).value;
      |text| >= |"virtual "| + |" override"| &&
      text[..|"virtual "|] == "virtual " && text[|text| - |" override"|..] == " override"
  {
    var front := "" + Modifiers(m, true);
    assert Modifiers(m, true) == "" + "virtual ";
    assert front == "virtual ";
    var returnPart := ReturnPart(clean, m).value;
    var parameters := ParameterList(clean, m.parameters, true).value;
    var x1 := front + returnPart;
    var x2 := x1 + Qualifier(clean, m, true);
    var x3 := x2 + DeclaredName(clean, m);
    var x4 := x3 + "(";
    var x5 := x4 + parameters;
    var x6 := x5 + ")";
    assert MethodDeclaration(clean, m, true).value == x6 + Trailer(m, true);
    assert Trailer(m, true) == " override";
    PrefixKept(front, returnPart, 8);
    PrefixKept(x1, Qualifier(clean, m, true), 8);
    PrefixKept(x2, DeclaredName(clean, m), 8);
    PrefixKept(x3, "(", 8);
    PrefixKept(x4, parameters, 8);
    PrefixKept(x5, ")", 8);
    PrefixKept(x6, " override", 8);
    assert (x6 + " override")[|x6|..] == " override";
  }

  lemma PrefixKept(a: string, b: string, k: nat)
    requires k <= |a|
    ensures (a + b)[..k] == a[..k]
  {
  }
}
