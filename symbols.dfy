/**
  The read-only symbol model the serializer consumes: namespaces, named types,
  type parameters, methods and parameters, as the compiler front end supplies
  them.  Only the attributes the serializer reads are kept.
*/
module Symbols {

  datatype Option<+T> = None | Some(value: T)

  /** Exceptions the serializer can raise while writing a type reference. */
  datatype Failure =
    | NotImplemented       // System.NotImplementedException
    | ArgumentOutOfRange   // System.ArgumentOutOfRangeException

  datatype Result<+T> = Ok(value: T) | Fail(failure: Failure)

  /** The special-type tag of a type; the tags the serializer does not name are
      folded into `OtherSpecialType`. */
  datatype SpecialType =
    | NoSpecialType
    | SystemObject
    | SystemVoid
    | SystemBoolean
    | SystemChar
    | SystemSByte
    | SystemByte
    | SystemInt16
    | SystemUInt16
    | SystemInt32
    | SystemUInt32
    | SystemInt64
    | SystemUInt64
    | SystemDecimal
    | SystemSingle
    | SystemDouble
    | SystemString
    | SystemIntPtr
    | SystemUIntPtr
    | OtherSpecialType(ordinal: int)

  /** One node of the chain a namespace enumerates, outermost first.  The
      global namespace carries the metadata name of its containing assembly. */
  datatype NamespaceNode =
    | GlobalNamespace(assemblyMetadataName: string)
    | Namespace(metadataName: string)
  {
    predicate IsGlobalNamespace() { GlobalNamespace? }
  }

  datatype TypeParameterSymbol = TypeParameterSymbol(metadataName: string)

  /** The kind of a type.  Array, pointer and enum kinds carry the type the
      serializer reaches through them; `UnlistedKind` stands for any value of
      the kind enumeration the serializer's switch does not list. */
  datatype TypeKind =
    | Unknown
    | ArrayType(elementType: TypeSymbol)
    | Class
    | Delegate
    | DynamicType
    | Enum(enumUnderlyingType: TypeSymbol)
    | Error
    | Interface
    | Module
    | PointerType(pointedAtType: TypeSymbol)
    | Struct
    | TypeParameter
    | Submission
    | UnlistedKind(ordinal: int)

  /** A type symbol.  `containingNamespace` is `None` when the symbol has no
      containing namespace, and otherwise the chain of namespace nodes that the
      containing namespace enumerates. */
  datatype TypeSymbol = TypeSymbol(
    metadataName: string,
    kind: TypeKind,
    specialType: SpecialType,
    isValueType: bool,
    isReferenceType: bool,
    containingNamespace: Option<seq<NamespaceNode>>,
    containingType: Option<TypeSymbol>,
    isGenericType: bool,
    typeParameters: seq<TypeParameterSymbol>,
    typeArguments: seq<TypeSymbol>,
    baseType: Option<TypeSymbol>)

  datatype MethodKind =
    | Ordinary
    | Constructor
    | StaticConstructor
    | Destructor
    | Conversion
    | UserDefinedOperator
    | PropertyGet
    | PropertySet
    | ExplicitInterfaceImplementation
    | OtherMethodKind(ordinal: int)

  datatype ParameterSymbol = ParameterSymbol(metadataName: string, parameterType: TypeSymbol)

  datatype MethodSymbol = MethodSymbol(
    metadataName: string,
    methodKind: MethodKind,
    isStatic: bool,
    isVirtual: bool,
    isOverride: bool,
    isAbstract: bool,
    isGenericMethod: bool,
    typeParameters: seq<TypeParameterSymbol>,
    returnsVoid: bool,
    returnType: TypeSymbol,
    parameters: seq<ParameterSymbol>,
    containingNamespace: Option<seq<NamespaceNode>>,
    receiverType: TypeSymbol)
}
