/**
  The synthesized virtual clone method: a method named `__clone`, virtual in
  a type without a base type and an override in every type with one,
  returning an object and taking no parameters, whose body returns a new
  heap copy of `*this`.
*/
module CloneVirtualMethod {
  import opened Symbols

  const CLONE_METHOD_NAME: string := "__clone"

  /** The synthesized named type the clone method returns; only the special
      type is set by the code modelled here. */
  class NamedTypeImpl {
    var specialType: SpecialType

    constructor (specialType: SpecialType)
      ensures this.specialType == specialType
    {
      this.specialType := specialType;
    }
  }

  /** CCodeCloneMethod: the method symbol of the clone method. */
  class CloneMethod {
    var name: string
    var metadataName: string
    var methodKind: MethodKind
    var containingType: TypeSymbol
    var isVirtual: bool
    var isOverride: bool
    var returnType: NamedTypeImpl
    var parameters: seq<ParameterSymbol>

    constructor (t: TypeSymbol)
      ensures name == CLONE_METHOD_NAME && metadataName == CLONE_METHOD_NAME
      ensures methodKind == Ordinary && containingType == t
      ensures isVirtual && (isOverride <==> t.baseType.Some?)
      ensures fresh(returnType) && returnType.specialType == SystemObject
      ensures parameters == []
    {
      name := CLONE_METHOD_NAME;
      metadataName := CLONE_METHOD_NAME;
      methodKind := Ordinary;
      containingType := t;
      isVirtual := true;
      isOverride := t.baseType.Some?;
      var r := GetReturnType(t);
      returnType := r;
      parameters := [];
    }

    /** Always a fresh object type, whatever the type being cloned. */
    static method GetReturnType(t: TypeSymbol) returns (r: NamedTypeImpl)
      ensures fresh(r) && r.specialType == SystemObject
    {
      r := new NamedTypeImpl(SystemObject);
    }
  }

  /** The bound expressions the clone body is built from. */
  datatype Expression =
    | ThisReference
    | PointerIndirectionOperator(operand: Expression)
    | ObjectCreationExpression(createdType: TypeSymbol, newOperator: bool, arguments: seq<Expression>)

  datatype Statement = ReturnStatement(expressionOpt: Option<Expression>)

  /** A method body: the method it belongs to and its statements. */
  datatype MethodBody = MethodBody(owner: CloneMethod, statements: seq<Statement>)

  /** `new T(*this)`: a heap copy constructed from the current instance. */
  function CopyOfThis(t: TypeSymbol): (e: Expression)
    ensures e.ObjectCreationExpression? && e.createdType == t && e.newOperator
    ensures |e.arguments| == 1 && e.arguments[0] == PointerIndirectionOperator(ThisReference)
  {
    ObjectCreationExpression(t, true, [PointerIndirectionOperator(ThisReference)])
  }

  /** CCodeCloneVirtualMethod: the declaration of the clone method of a type,
      with its body. */
  class CloneVirtualMethod {
    var cloneMethod: CloneMethod
    var methodBodyOpt: Option<MethodBody>

    constructor (t: TypeSymbol)
      ensures fresh(cloneMethod) && fresh(cloneMethod.returnType)
      ensures cloneMethod.name == CLONE_METHOD_NAME && cloneMethod.metadataName == CLONE_METHOD_NAME
      ensures cloneMethod.methodKind == Ordinary && cloneMethod.containingType == t
      ensures cloneMethod.isVirtual && (cloneMethod.isOverride <==> t.baseType.Some?)
      ensures cloneMethod.returnType.specialType == SystemObject && cloneMethod.parameters == []
      ensures methodBodyOpt == Some(MethodBody(cloneMethod, [ReturnStatement(Some(CopyOfThis(t)))]))
    {
      var m := new CloneMethod(t);
      cloneMethod := m;
      methodBodyOpt := Some(MethodBody(m, [ReturnStatement(Some(CopyOfThis(t)))]));
    }
  }

  /** The clone methods of a type without a base type and of a type derived
      from it: virtual in the first, an override in the second, both
      returning the object type and taking no parameters, and each body
      copying its own type. */
  method CloneBaseAndDerived(b: TypeSymbol, d: TypeSymbol)
    returns (baseOverrides: bool, derivedOverrides: bool, bothVirtual: bool,
             sameReturnType: bool, bothParameterless: bool, bodiesCopyOwnType: bool)
    requires b.baseType.None? && d.baseType == Some(b)
    ensures !baseOverrides && derivedOverrides && bothVirtual
    ensures sameReturnType && bothParameterless && bodiesCopyOwnType
  {
    var forBase := new CloneVirtualMethod(b);
    var forDerived := new CloneVirtualMethod(d);
    baseOverrides := forBase.cloneMethod.isOverride;
    derivedOverrides := forDerived.cloneMethod.isOverride;
    bothVirtual := forBase.cloneMethod.isVirtual && forDerived.cloneMethod.isVirtual;
    sameReturnType := forBase.cloneMethod.returnType.specialType == forDerived.cloneMethod.returnType.specialType;
    bothParameterless := forBase.cloneMethod.parameters == [] && forDerived.cloneMethod.parameters == [];
    bodiesCopyOwnType :=
      forBase.methodBodyOpt == Some(MethodBody(forBase.cloneMethod, [ReturnStatement(Some(CopyOfThis(b)))])) &&
      forDerived.methodBodyOpt == Some(MethodBody(forDerived.cloneMethod, [ReturnStatement(Some(CopyOfThis(d)))]));
  }

  // ---------------------------------------------------------------------------
  // Construction with a null type
  // ---------------------------------------------------------------------------

  datatype ConstructionFailure =
    | NullReference   // System.NullReferenceException
    | ArgumentNull    // System.ArgumentNullException

  datatype Construction = Constructed | Thrown(failure: ConstructionFailure)

  /** The base-constructor argument `new CCodeCloneMethod(type)`: reading the
      base type of a null type throws. */
  function CloneMethodArgument(typeOpt: Option<TypeSymbol>): Construction
  {
    if typeOpt.None? then Thrown(NullReference) else Constructed
  }

  /** The null check of the constructor body. */
  function NullCheck(typeOpt: Option<TypeSymbol>): Construction
  {
    if typeOpt.None? then Thrown(ArgumentNull) else Constructed
  }

  function Then(first: Construction, second: Construction): Construction
  {
    if first.Thrown? then first else second
  }

  /** The constructor as written: the base-constructor argument is evaluated
      before the body's null check. */
  function ConstructAsWritten(typeOpt: Option<TypeSymbol>): Construction
  {
    Then(CloneMethodArgument(typeOpt), NullCheck(typeOpt))
  }

  /** The constructor with the null check first, as its body intends. */
  function ConstructChecked(typeOpt: Option<TypeSymbol>): Construction
  {
    Then(NullCheck(typeOpt), CloneMethodArgument(typeOpt))
  }

  /** As written, the ArgumentNullException can never be thrown: a null type
      throws a NullReferenceException from the base-constructor argument. */
  lemma NullCheckUnreachableAsWritten(typeOpt: Option<TypeSymbol>)
    ensures ConstructAsWritten(typeOpt) != Thrown(ArgumentNull)
    ensures ConstructAsWritten(None) == Thrown(NullReference)
  {
  }

  /** Checked first, a null type is rejected with ArgumentNullException and
      a non-null type is built exactly as before. */
  lemma CheckedRejectsNull(typeOpt: Option<TypeSymbol>)
    ensures ConstructChecked(typeOpt) == Thrown(ArgumentNull) <==> typeOpt.None?
    ensures typeOpt.Some? ==> ConstructChecked(typeOpt) == ConstructAsWritten(typeOpt) == Constructed
  {
  }
}
