/**
  The method-signature emitter: the declaration written inside a class body
  (`inClass`) and the definition header written in a type's source file.
*/
module MethodWriter {
  import opened Symbols
  import opened Text
  import opened TypeWriter

  /** WriteMethodName: the cleaned name; an explicit conversion operator also
      gets `_` and the suffix of its return type, so that conversions that differ
      only in their return type get different names. */
  function MethodName(clean: string -> string, m: MethodSymbol): string
  {
    clean(m.metadataName)
    + (if m.metadataName == "op_Explicit" then "_" + TypeSuffix(clean, m.returnType) else "")
  }

  /** What WriteTemplateDeclaration writes for a generic method: its own type
      parameters only. */
  function MethodTemplateDeclaration(clean: string -> string, m: MethodSymbol): string
  {
    "template <" + Join(TemplateParameterNames(clean, m.typeParameters), ", ") + "> "
  }

  /** WriteTemplateDeclaration (for a method). */
  method WriteMethodTemplateDeclaration(clean: string -> string, m: MethodSymbol) returns (text: string)
    ensures text == MethodTemplateDeclaration(clean, m)
  {
    var names := TemplateParameterNames(clean, m.typeParameters);
    text := "template <";
    var anyTypeParam := false;
    for i := 0 to |m.typeParameters|
      invariant anyTypeParam == (i > 0)
      invariant text == "template <" + Join(names[..i], ", ")
    {
      var separator := if anyTypeParam then ", " else "";
      anyTypeParam := true;
      var item := "typename " + clean(m.typeParameters[i].metadataName);
      assert item == names[i];
      assert names[..i + 1] == names[..i] + [item];
      JoinStepAfter("template <", names[..i], item, ", ");
      text := text + separator + item;
    }
    assert names[..|m.typeParameters|] == names;
    text := text + "> ";
  }

  predicate IsVirtualLike(m: MethodSymbol)
  {
    m.isVirtual || m.isOverride || m.isAbstract
  }

  /** The marker a generic method gets around what the target cannot express. */
  function CommentedOut(commented: bool, text: string): string
  {
    if commented then "/*" + text + "*/" else text
  }

  /** The storage and virtuality modifiers (CCodeSerializer.cs lines 256-278). */
  function Modifiers(m: MethodSymbol, inClass: bool): (r: string)
    ensures !inClass ==> r == ""
  {
    if !inClass then ""
    else
      (if m.isStatic then "static " else "")
      + (if IsVirtualLike(m) then CommentedOut(m.isGenericMethod, "virtual ") else "")
  }

  /** The return type and its blank, absent for constructors (CCodeSerializer.cs lines 281-293). */
  function ReturnPart(clean: string -> string, m: MethodSymbol): Result<string>
  {
    if m.methodKind == Constructor then Ok("")
    else if m.returnsVoid then Ok("void ")
    else Wrapped(TypeReference(clean, m.returnType), "", " ")
  }

  /** The `ns::Type::` prefix of an out-of-class definition (CCodeSerializer.cs lines 296-306). */
  function Qualifier(clean: string -> string, m: MethodSymbol, inClass: bool): (r: string)
    ensures inClass ==> r == ""
  {
    if inClass then ""
    else
      (if m.containingNamespace.Some? then NamespaceText(clean, m.containingNamespace.value) + "::" else "")
      + TypeName(clean, m.receiverType) + "::"
  }

  /** Constructors are named after their receiver type (CCodeSerializer.cs lines 309-316). */
  function DeclaredName(clean: string -> string, m: MethodSymbol): string
  {
    if m.methodKind == Constructor then TypeName(clean, m.receiverType) else MethodName(clean, m)
  }

  /** One parameter: its type, and its name only out of class (CCodeSerializer.cs lines 330-335). */
  function ParameterItem(clean: string -> string, p: ParameterSymbol, inClass: bool): Result<string>
  {
    Wrapped(TypeReference(clean, p.parameterType), "", if inClass then "" else " " + clean(p.metadataName))
  }

  /** The parameter items in order; the first parameter whose type fails decides. */
  function ParameterItems(clean: string -> string, ps: seq<ParameterSymbol>, inClass: bool): (r: Result<seq<string>>)
    ensures r.Ok? ==> |r.value| == |ps|
  {
    if |ps| == 0 then Ok([])
    else
      match ParameterItems(clean, ps[..|ps| - 1], inClass)
      case Fail(f) => Fail(f)
      case Ok(items) =>
        match ParameterItem(clean, ps[|ps| - 1], inClass)
        case Fail(f) => Fail(f)
        case Ok(item) => Ok(items + [item])
  }

  /** The parameter list between the parentheses. */
  function ParameterList(clean: string -> string, ps: seq<ParameterSymbol>, inClass: bool): Result<string>
  {
    match ParameterItems(clean, ps, inClass)
    case Fail(f) => Fail(f)
    case Ok(items) => Ok(Join(items, ", "))
  }

  /** One more parameter whose item is written extends the item list by it. */
  lemma ParameterItemsStep(clean: string -> string, ps: seq<ParameterSymbol>, inClass: bool, i: nat,
                           items: seq<string>, item: string)
    requires i < |ps| && ParameterItems(clean, ps[..i], inClass) == Ok(items)
    requires TypeReference(clean, ps[i].parameterType).Ok?
    requires item == TypeReference(clean, ps[i].parameterType).value
                     + (if inClass then "" else " " + clean(ps[i].metadataName))
    ensures ParameterItems(clean, ps[..i + 1], inClass) == Ok(items + [item])
  {
    assert ps[..i + 1][..i] == ps[..i];
    assert ps[..i + 1][i] == ps[i];
    var t := TypeReference(clean, ps[i].parameterType).value;
    var tail := if inClass then "" else " " + clean(ps[i].metadataName);
    assert "" + t + tail == item;
  }

  /** The parameter loop of WriteMethodDeclaration (CCodeSerializer.cs lines 319-336). */
  method WriteParameters(clean: string -> string, ps: seq<ParameterSymbol>, inClass: bool) returns (r: Result<string>)
    ensures r == ParameterList(clean, ps, inClass)
  {
    var text := "";
    var anyParameter := false;
    ghost var items: seq<string> := [];
    for i := 0 to |ps|
      invariant ParameterItems(clean, ps[..i], inClass) == Ok(items)
      invariant anyParameter == (i > 0)
      invariant text == Join(items, ", ")
    {
      var separator := if anyParameter then ", " else "";
      anyParameter := true;
      var parameterType := TypeReference(clean, ps[i].parameterType);
      if parameterType.Fail? {
        assert ps[..i + 1][..i] == ps[..i];
        assert ps[..i + 1][i] == ps[i];
        assert ParameterItem(clean, ps[i], inClass) == Fail(parameterType.failure);
        ParameterFailurePersists(clean, ps, inClass, i + 1);
        return Fail(parameterType.failure);
      }
      var item := parameterType.value;
      if !inClass {
        item := item + " " + clean(ps[i].metadataName);
      }
      ParameterItemsStep(clean, ps, inClass, i, items, item);
      JoinStep(items, item, ", ");
      items := items + [item];
      text := text + separator + item;
    }
    assert ps[..|ps|] == ps;
    r := Ok(text);
  }

  /** ` override`, or else ` = 0` for an abstract method, in class only (CCodeSerializer.cs lines 340-362). */
  function Trailer(m: MethodSymbol, inClass: bool): (r: string)
    ensures !inClass ==> r == ""
  {
    if !inClass then ""
    else CommentedOut(m.isGenericMethod, if m.isOverride then " override" else if m.isAbstract then " = 0" else "")
  }

  /** What WriteMethodDeclaration writes, or the exception it throws. */
  function MethodDeclaration(clean: string -> string, m: MethodSymbol, inClass: bool): Result<string>
  {
    var preamble := if m.isGenericMethod then MethodTemplateDeclaration(clean, m) else "";
    match ReturnPart(clean, m)
    case Fail(f) => Fail(f)
    case Ok(returnPart) =>
      match ParameterList(clean, m.parameters, inClass)
      case Fail(f) => Fail(f)
      case Ok(parameters) =>
        Ok(preamble + Modifiers(m, inClass) + returnPart + Qualifier(clean, m, inClass)
           + DeclaredName(clean, m) + "(" + parameters + ")" + Trailer(m, inClass))
  }

  /** The modifiers section of WriteMethodDeclaration. */
  method WriteModifiers(m: MethodSymbol, inClass: bool) returns (text: string)
    ensures text == Modifiers(m, inClass)
  {
    text := "";
    if inClass {
      if m.isStatic {
        text := text + "static ";
      }
      if m.isVirtual || m.isOverride || m.isAbstract {
        if m.isGenericMethod {
          text := text + "/*";
        }
        text := text + "virtual ";
        if m.isGenericMethod {
          text := text + "*/";
        }
      }
    }
  }

  /** The return-type section of WriteMethodDeclaration. */
  method WriteReturnPart(clean: string -> string, m: MethodSymbol) returns (r: Result<string>)
    ensures r == ReturnPart(clean, m)
  {
    var text := "";
    if m.methodKind != Constructor {
      if m.returnsVoid {
        text := text + "void";
        assert text + " " == "void ";
      } else {
        var returnType := TypeReference(clean, m.returnType);
        if returnType.Fail? {
          return Fail(returnType.failure);
        }
        text := text + returnType.value;
        assert "" + returnType.value + " " == text + " ";
      }
      text := text + " ";
    }
    r := Ok(text);
  }

  /** The qualifier section of WriteMethodDeclaration. */
  method WriteQualifier(clean: string -> string, m: MethodSymbol, inClass: bool) returns (text: string)
    ensures text == Qualifier(clean, m, inClass)
  {
    text := "";
    if !inClass {
      if m.containingNamespace.Some? {
        var ns := WriteNamespace(clean, m.containingNamespace.value);
        text := text + ns + "::";
      }
      text := text + TypeName(clean, m.receiverType) + "::";
    }
  }

  /** The trailer section of WriteMethodDeclaration. */
  method WriteTrailer(m: MethodSymbol, inClass: bool) returns (text: string)
    ensures text == Trailer(m, inClass)
  {
    text := "";
    if inClass {
      if m.isGenericMethod {
        text := text + "/*";
      }
      if m.isOverride {
        text := text + " override";
      } else if m.isAbstract {
        text := text + " = 0";
      }
      if m.isGenericMethod {
        text := text + "*/";
      }
    }
  }

  /** WriteMethodDeclaration: its sections in the source's order. */
  method WriteMethodDeclaration(clean: string -> string, m: MethodSymbol, inClass: bool) returns (r: Result<string>)
    ensures r == MethodDeclaration(clean, m, inClass)
  {
    var text := "";
    if m.isGenericMethod {
      var preamble := WriteMethodTemplateDeclaration(clean, m);
      text := text + preamble;
      assert "" + preamble == preamble;
    }
    assert text == if m.isGenericMethod then MethodTemplateDeclaration(clean, m) else "";
    var modifiers := WriteModifiers(m, inClass);
    text := text + modifiers;
    var returnPart := WriteReturnPart(clean, m);
    if returnPart.Fail? {
      return Fail(returnPart.failure);
    }
    text := text + returnPart.value;
    var qualifier := WriteQualifier(clean, m, inClass);
    text := text + qualifier;
    if m.methodKind == Constructor {
      text := text + TypeName(clean, m.receiverType);
    } else {
      text := text + MethodName(clean, m);
    }
    text := text + "(";
    var parameters := WriteParameters(clean, m.parameters, inClass);
    if parameters.Fail? {
      return Fail(parameters.failure);
    }
    text := text + parameters.value + ")";
    var trailer := WriteTrailer(m, inClass);
    text := text + trailer;
    r := Ok(text);
  }

  /** Once a parameter's type fails, the failure of the first such parameter
      is the failure of every longer parameter list. */
  lemma {:induction false} ParameterFailurePersists(clean: string -> string, ps: seq<ParameterSymbol>, inClass: bool, k: nat)
    requires k <= |ps|
    requires ParameterItems(clean, ps[..k], inClass).Fail?
    ensures ParameterItems(clean, ps, inClass) == ParameterItems(clean, ps[..k], inClass)
    decreases |ps| - k
  {
    if k < |ps| {
      assert ps[..k + 1][..k] == ps[..k];
      ParameterFailurePersists(clean, ps, inClass, k + 1);
    } else {
      assert ps[..k] == ps;
    }
  }
}
