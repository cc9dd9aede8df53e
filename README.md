# cs2cpp declaration-text generator and clone-method factory, in Dafny

cs2cpp translates a compiled C# assembly into C++ source text. This project
models two parts of it:

- **The C++ text generator of `CCodeSerializer`.** Given the compiler's type
  and method symbols, it computes the text the serializer writes:
  - type references;
  - name suffixes of conversion operators;
  - nested and namespace-qualified names;
  - template parameter and argument lists;
  - method declarations and definitions;
  - the shared header `src/<assembly>.h`;
  - one `.cpp` file per type unit, with its folder and its `#include` line.
- **The synthesized `__clone` method.** `CCodeCloneVirtualMethod` builds it for
  every type: the method record and its one-statement body.

How the model is written:

- **Symbols are read-only values.** Types, methods, parameters and namespace
  nodes are datatypes (`symbols.dfy`).
- **What the serializer writes is a returned string.** Each pure writing
  routine is a function. The routines that loop with "anything written yet"
  flags, or thread a by-reference flag through recursion, are methods with
  loops. The sections of `WriteMethodDeclaration` and `WriteHeader` without
  a loop (modifiers, return part, qualifier, trailer, type head, base clause)
  are straight-line methods. Each method is proved equal to its function,
  and the lemmas state what those functions promise.
- **An exception is a result.** A routine that throws returns
  `Fail(NotImplemented)` or `Fail(ArgumentOutOfRange)`.
- **Foreign helpers are parameters.** The name mangler `CleanUpName` is the
  uninterpreted parameter `clean`, and `CleanUpNameAllUnderscore` is the
  parameter `flat`. A namespace's `EnumNamespaces()` is the sequence of nodes
  stored in the type symbol.
- **The clone factory keeps its imperative form.** The method record and the
  clone method are classes, and their constructors state every field they set.

Files:

- `symbols.dfy` (`Symbols`): the symbol model.
- `text.dfy` (`Text`): join, flagged join, concatenation and repetition, with
  their append lemmas.
- `type_writer.dfy` (`TypeWriter`):
  - the built-in table;
  - namespaces and names;
  - template lists;
  - `WriteType`, `WriteTypeFullName` and `WriteTypeSuffix`.
- `type_lemmas.dfy` (`TypeLemmas`):
  - the shape of each kind's reference;
  - exactly when `WriteType` throws;
  - distinct suffixes;
  - template parameter and argument lists kept in lock-step.
- `method_writer.dfy` (`MethodWriter`) and `method_lemmas.dfy`
  (`MethodLemmas`): `WriteMethodDeclaration` and its properties.
- `unit_writer.dfy` (`UnitWriter`): the text of `WriteHeader` and
  `WriteSources`, and the path arithmetic of `GetPath(CCodeUnit, out int)`.
- `plain_text.dfy` (`PlainText`) and `unit_lemmas.dfy` (`UnitLemmas`):
  - no name a writer produces contains a brace or a line break;
  - the header holds as many `}` as `{`;
  - when the header can be written at all;
  - every include line leads back to the header;
  - a worked example.
- `clone_virtual_method.dfy` (`CloneVirtualMethod`): the clone method factory.

The functions that stand for the serializer's routines, and which the lemmas
in the table below are about:

| function | routine |
|---|---|
| `TypeWriter.SpecialTypeSpelling` | `WriteSpecialType` |
| `TypeWriter.NamespaceText` | `WriteNamespace` |
| `TypeWriter.NamespaceName` | `WriteNamespaceName` |
| `TypeWriter.TypeName` | `WriteTypeName` |
| `TypeWriter.TypeFullName` | `WriteTypeFullName` |
| `TypeWriter.TypeReference` | `WriteType` |
| `TypeWriter.TypeSuffix` | `WriteTypeSuffix` |
| `TypeWriter.TemplateDeclaration` | `WriteTemplateDeclaration` of a type |
| `TypeWriter.TemplateDefinition` | `WriteTemplateDefinition` |
| `MethodWriter.MethodName` | `WriteMethodName` (`WriteName` for ordinary methods) |
| `MethodWriter.MethodTemplateDeclaration` | `WriteTemplateDeclaration` of a method |
| `MethodWriter.MethodDeclaration` | `WriteMethodDeclaration` |
| `UnitWriter.ReplaceAll` | `String.Replace` on the boilerplate |
| `UnitWriter.HeaderText`, `UnitWriter.HeaderFile` | `WriteHeader` |
| `UnitWriter.SourcePath` | `GetPath(CCodeUnit, out int)` |
| `UnitWriter.SourceText`, `UnitWriter.SourceFile` | one iteration of `WriteSources` |

Points of the code's output that the model reproduces exactly:

- **Override methods in class.** They are written with both `virtual ` and
  ` override` (CCodeSerializer.cs line 263, then lines 340-362).
- **Core-library boilerplate.** The forward-declaration boilerplate goes
  before the first pass (lines 560-564). The declaration boilerplate goes
  after the second pass (lines 652-657).
- **Forward declarations of generic types.** They carry the template
  preamble (lines 577-580). The namespace closers are bare `}` characters
  with no blanks (lines 587-590).
- **The include line.** It climbs with backslash steps, `..\` (line 540).

## Model

| member | source | states |
|---|---|---|
| TypeWriter.SpecialTypeSpelling | Il2Native.Logic/CCodeSerializer.cs:179-247 | a spelling exists exactly for the fifteen table entries; it is the table spelling, and `IntPtr`/`UIntPtr` are wrapped in `__val<...>` unless the clean name is asked for |
| TypeWriter.BuiltinTableSize | Il2Native.Logic/CCodeSerializer.cs:179-247 | the built-in table has exactly fifteen entries |
| TypeWriter.SpecialTypeSpellingsDistinct | Il2Native.Logic/CCodeSerializer.cs:179-247 | two different built-in types never get the same spelling, in either mode |
| PlainText.SpellingPlain | Il2Native.Logic/CCodeSerializer.cs:179-247 | no built-in spelling contains a brace or a line break |
| TypeLemmas.NamespaceNamesOfChain | Il2Native.Logic/CCodeSerializer.cs:36-46 | for an enumerated chain starting at the global namespace, one name per node: first the cleaned assembly name, then each namespace by its raw metadata name |
| TypeWriter.WriteNamespace | Il2Native.Logic/CCodeSerializer.cs:20-34 | the loop writes the node names with `::` between each two neighbours and nowhere else |
| TypeWriter.TypeNameJoinsChain | Il2Native.Logic/CCodeSerializer.cs:107-116 | a nested type's name is the cleaned names of its containing-type chain joined by `_`, outermost first |
| TypeLemmas.TypeFullNameShape | Il2Native.Logic/CCodeSerializer.cs:91-105 | a full name is `ns::` exactly when there is a containing namespace, then the nested name, then `<args>` exactly when the type is generic |
| TypeLemmas.TypeFullNameOkIffSupported | Il2Native.Logic/CCodeSerializer.cs:91-105 | writing a full name throws exactly when the type is generic and some template argument along its containing chain cannot be referenced |
| TypeLemmas.BuiltinReference | Il2Native.Logic/CCodeSerializer.cs:118-124 | a built-in value type is referenced by its table spelling, with pointer-sized integers wrapped |
| TypeLemmas.TypeReferenceByKind | Il2Native.Logic/CCodeSerializer.cs:125-176 | arrays are `__array<elem>*` and pointers `pointee*`; enums are `__enum<full, underlying>`; classes, interfaces and delegates get `*` exactly when they are reference types; structs never get it; type parameters are their cleaned names; Unknown, Dynamic, Error, Module and Submission throw NotImplemented, and any unlisted kind throws ArgumentOutOfRange |
| TypeLemmas.TypeReferenceOkIffSupported | Il2Native.Logic/CCodeSerializer.cs:118-177 | WriteType returns normally exactly for the types whose every reachable kind is listed |
| PlainText.TypeReferencePlain | Il2Native.Logic/CCodeSerializer.cs:118-177 | a type reference never contains a brace or a line break when the mangler's output and the namespace names contain none |
| PlainText.TypeFullNamePlain | Il2Native.Logic/CCodeSerializer.cs:91-105 | the same for a full name |
| TypeLemmas.TypeSuffixByKind | Il2Native.Logic/CCodeSerializer.cs:63-89 | a suffix is the clean built-in spelling, the element suffix and `Array`, the pointee suffix and `Ptr`, a type parameter's cleaned name, or the nested type name |
| TypeLemmas.BuiltinSuffixesDistinct | Il2Native.Logic/CCodeSerializer.cs:63-89 | two built-in value types with different tags get different suffixes |
| MethodLemmas.OrdinaryMethodName | Il2Native.Logic/CCodeSerializer.cs:48-61 | a method not named `op_Explicit` is written as its cleaned metadata name |
| MethodLemmas.ExplicitConversionNames | Il2Native.Logic/CCodeSerializer.cs:53-61 | two explicit conversions get the same name exactly when their return types get the same suffix |
| MethodLemmas.BuiltinConversionsDistinct | Il2Native.Logic/CCodeSerializer.cs:53-89 | conversions to two different built-in value types get different names |
| TypeWriter.WriteTemplateDeclarationRecursive | Il2Native.Logic/CCodeSerializer.cs:375-394 | recursing to the containing type first, the method appends `typename P` items with `, ` only between items, and the by-reference flag ends up set exactly when something was listed before or now |
| TypeWriter.WriteTemplateDeclaration | Il2Native.Logic/CCodeSerializer.cs:365-373 | the declaration is `template <` and the item list and `> ` |
| TypeWriter.WriteTemplateDefinitionRecursive | Il2Native.Logic/CCodeSerializer.cs:406-424 | the same for the argument references, and the first argument that cannot be referenced decides the exception |
| TypeWriter.WriteTemplateDefinition | Il2Native.Logic/CCodeSerializer.cs:396-404 | the argument list is `<` and the items and `>`, or the exception |
| TypeLemmas.TemplateParametersFollowChain | Il2Native.Logic/CCodeSerializer.cs:375-394 | the declaration lists the type parameters of the containing chain, outermost level first |
| TypeLemmas.TemplateArgumentsFollowChain | Il2Native.Logic/CCodeSerializer.cs:406-424 | the argument list lists the references of the chain's type arguments, outermost level first |
| TypeLemmas.TemplateListsAligned | Il2Native.Logic/CCodeSerializer.cs:365-424 | with as many arguments as parameters on every level, both lists have the same length and item `i` of each comes from the same parameter/argument binding |
| MethodWriter.WriteMethodTemplateDeclaration | Il2Native.Logic/CCodeSerializer.cs:426-444 | a generic method's declaration lists its own `typename` parameters between `template <` and `> ` |
| MethodWriter.Modifiers | Il2Native.Logic/CCodeSerializer.cs:256-278 | nothing is written out of class |
| MethodWriter.WriteModifiers | Il2Native.Logic/CCodeSerializer.cs:256-278 | the section writes the modifiers |
| MethodLemmas.ModifiersInClass | Il2Native.Logic/CCodeSerializer.cs:256-278 | in class: `static ` exactly for static methods; `virtual ` exactly for virtual, override or abstract ones, commented out for generic ones; nothing for any other method |
| MethodWriter.WriteReturnPart | Il2Native.Logic/CCodeSerializer.cs:281-293 | the section writes the return part or throws |
| MethodLemmas.ConstructorDeclaration | Il2Native.Logic/CCodeSerializer.cs:281-316 | a constructor has no return part and is named after its receiver type |
| MethodLemmas.VoidReturn | Il2Native.Logic/CCodeSerializer.cs:281-293 | a method that returns nothing is declared `void ` |
| MethodWriter.Qualifier | Il2Native.Logic/CCodeSerializer.cs:296-306 | nothing is written in class |
| MethodWriter.WriteQualifier | Il2Native.Logic/CCodeSerializer.cs:296-306 | the section writes the `ns::Type::` qualifier |
| MethodWriter.ParameterItems | Il2Native.Logic/CCodeSerializer.cs:319-336 | when written, there is one item per parameter |
| MethodWriter.WriteParameters | Il2Native.Logic/CCodeSerializer.cs:319-336 | the loop writes the items with `, ` only between them, and the first parameter type that cannot be referenced decides the exception |
| MethodLemmas.ParameterItemsAcrossPlacement | Il2Native.Logic/CCodeSerializer.cs:319-336 | both placements write the same parameter types in order; only out of class is each followed by its cleaned name; one fails exactly when the other does |
| MethodLemmas.ParameterItemsOkIffSupported | Il2Native.Logic/CCodeSerializer.cs:319-336 | the parameter list can be written exactly when every parameter type can be referenced |
| MethodWriter.Trailer | Il2Native.Logic/CCodeSerializer.cs:340-362 | nothing is written out of class |
| MethodWriter.WriteTrailer | Il2Native.Logic/CCodeSerializer.cs:340-362 | the section writes the trailer |
| MethodLemmas.TrailerInClass | Il2Native.Logic/CCodeSerializer.cs:340-362 | in class, ` override` takes precedence over ` = 0`, so the two never both appear; a generic method's trailer is commented out |
| MethodWriter.WriteMethodDeclaration | Il2Native.Logic/CCodeSerializer.cs:249-363 | the declaration is the template preamble, modifiers, return part, qualifier, name, parenthesised parameters and trailer, or the exception |
| MethodLemmas.MethodDeclarationOkIffSupported | Il2Native.Logic/CCodeSerializer.cs:249-363 | a declaration throws exactly when a needed return type or some parameter type cannot be referenced; the placement never decides it or its exception |
| MethodLemmas.OutOfClassDefinition | Il2Native.Logic/CCodeSerializer.cs:249-363 | out of class there are no modifiers and no trailer, and the name is qualified by `ns::Type::` |
| MethodLemmas.OverrideDeclaredVirtual | Il2Native.Logic/CCodeSerializer.cs:256-363 | in class, a non-generic instance override starts with `virtual ` and ends with ` override` |
| UnitWriter.WriteNamespaceOpeners | Il2Native.Logic/CCodeSerializer.cs:570-575 | the loop writes one `namespace X { ` per namespace node, outermost first |
| UnitWriter.WriteNamespaceClosers | Il2Native.Logic/CCodeSerializer.cs:587-590 | the loop writes one `}` per namespace node |
| UnitWriter.WriteTypeHead | Il2Native.Logic/CCodeSerializer.cs:577-584 | the template preamble for a generic type, then `struct` or `class`, a blank and the nested name |
| UnitWriter.WriteForwardDeclaration | Il2Native.Logic/CCodeSerializer.cs:568-592 | one line: openers, head, `; `, closers |
| UnitWriter.WriteForwardPass | Il2Native.Logic/CCodeSerializer.cs:566-593 | the forward declarations of all units, in unit order |
| UnitWriter.WriteBaseClause | Il2Native.Logic/CCodeSerializer.cs:624-628 | ` : public ` and the base type's full name, nothing without a base type, or the exception |
| UnitWriter.WriteMembers | Il2Native.Logic/CCodeSerializer.cs:635-638 | the unit's member declarations, in order |
| UnitWriter.WriteFullDeclaration | Il2Native.Logic/CCodeSerializer.cs:598-650 | openers, a line break when there was one, head and base clause; the `{`/`public:` body with the members and `};`; then the closers |
| UnitWriter.WriteFullPass | Il2Native.Logic/CCodeSerializer.cs:597-650 | the full declarations in unit order; the first unit that throws decides |
| UnitWriter.WriteHeader | Il2Native.Logic/CCodeSerializer.cs:555-661 | `src/<name>.h` holds, for the core library, the substituted forward boilerplate, then the forward pass, a blank line, the full pass and, for the core library, the substituted declaration boilerplate; or the exception |
| UnitLemmas.ForwardDeclarationBlocks | Il2Native.Logic/CCodeSerializer.cs:566-593 | a forward declaration is one line ending in a line break, holding one `{` and one `}` per namespace node |
| UnitLemmas.ForwardSectionLines | Il2Native.Logic/CCodeSerializer.cs:566-593 | the forward pass writes one line per unit and holds as many `}` as `{` |
| UnitLemmas.FullDeclarationBlocks | Il2Native.Logic/CCodeSerializer.cs:598-650 | a full declaration holds one `{` per namespace node, one for the class body and those of its members, and as many `}` as `{` when its members do |
| UnitLemmas.FullSectionBalanced | Il2Native.Logic/CCodeSerializer.cs:597-650 | the full pass holds as many `}` as `{`, given members that do |
| UnitLemmas.HeaderBalanced | Il2Native.Logic/CCodeSerializer.cs:555-661 | the whole header holds as many `}` as `{`, given boilerplate and members that do |
| UnitLemmas.FullDeclarationOkIffBaseSupported | Il2Native.Logic/CCodeSerializer.cs:624-628 | a unit's full declaration throws exactly when its base type's full name cannot be written |
| UnitLemmas.FullSectionOkIffBasesSupported | Il2Native.Logic/CCodeSerializer.cs:597-650 | the full pass throws exactly when some unit's base type's full name cannot be written |
| UnitLemmas.HeaderOkIffBasesSupported | Il2Native.Logic/CCodeSerializer.cs:555-661 | WriteHeader throws exactly then |
| UnitLemmas.ReplaceAllWithoutPattern | Il2Native.Logic/CCodeSerializer.cs:560-564 | boilerplate without the assembly-name placeholder is copied unchanged |
| UnitLemmas.PlaceholderBecomesName | Il2Native.Logic/CCodeSerializer.cs:560-564 | the placeholder on its own becomes the assembly name |
| UnitLemmas.SubstitutedAroundPlaceholder | Il2Native.Logic/CCodeSerializer.cs:652-657 | a leading placeholder becomes the assembly name and the rest is substituted in turn |
| UnitWriter.NonGlobal | Il2Native.Logic/CCodeSerializer.cs:677-678 | a node is kept exactly when it is not the global namespace; never more nodes than there were, and all of them named namespaces |
| UnitLemmas.NonGlobalAppend | Il2Native.Logic/CCodeSerializer.cs:677-678 | the filter keeps order and repeats: filtering a concatenation concatenates the filtered parts |
| UnitLemmas.NonGlobalKeepsNamed | Il2Native.Logic/CCodeSerializer.cs:677-678 | a chain of named namespaces is kept unchanged |
| UnitLemmas.NonGlobalAfterGlobalRoot | Il2Native.Logic/CCodeSerializer.cs:677-679 | for an enumerated chain starting at the global namespace, the kept nodes are exactly the rest of the chain, in order and with repeats (`A.A` keeps both `A`) |
| UnitWriter.SourcePath | Il2Native.Logic/CCodeSerializer.cs:675-687 | the directory is `src` followed by one folder per non-global namespace, in order, each named by its flattened metadata name; the file is the flattened type name with `.cpp`; the nesting level is the number of those folders |
| UnitWriter.WriteSource | Il2Native.Logic/CCodeSerializer.cs:533-551 | the file's include line climbs `..\` once per nesting level to `<name>.h`, followed by the unit's definitions |
| UnitWriter.WriteSources | Il2Native.Logic/CCodeSerializer.cs:529-553 | one source file per unit, in unit order |
| UnitLemmas.IncludeResolvesToHeader | Il2Native.Logic/CCodeSerializer.cs:537-543 | the include line climbs exactly once per non-global namespace, and resolved from the source file's folder it names the shared header in `src` |
| UnitLemmas.TopLevelUnitIncludesDirectly | Il2Native.Logic/CCodeSerializer.cs:537-543 | a unit with only the global namespace sits in `src` and includes the header without climbing |
| UnitLemmas.PairForwardDeclaration | Il2Native.Logic/CCodeSerializer.cs:566-593 | the forward declaration of `CoreLib::A::B::Pair<T>` is `namespace CoreLib { namespace A { namespace B { template <typename T> struct Pair; }}}` and a line break |
| UnitLemmas.PairFolders | Il2Native.Logic/CCodeSerializer.cs:677-678 | the namespaces of `CoreLib::A::B` below the global one are `A` and `B` |
| UnitLemmas.PairSourcePath | Il2Native.Logic/CCodeSerializer.cs:675-687 | the source file of `Pair<T>` is `src/A/B/Pair_1.cpp`, at nesting level 2 |
| UnitLemmas.PairIncludeLine | Il2Native.Logic/CCodeSerializer.cs:537-543 | at nesting level 2 its source text is exactly the line `#include "..\..\CoreLib.h"`, the unit having no definitions |
| CloneVirtualMethod.CloneMethod.constructor | Il2Native.Logic/DOM/Synthesized/CCodeCloneVirtualMethod.cs:39-49 | name and metadata name `__clone`, ordinary kind, the given containing type, always virtual, an override exactly when the type has a base type, a fresh object return type, no parameters |
| CloneVirtualMethod.CloneMethod.GetReturnType | Il2Native.Logic/DOM/Synthesized/CCodeCloneVirtualMethod.cs:51-53 | a fresh named type of special type `System.Object`, whatever the type |
| CloneVirtualMethod.CopyOfThis | Il2Native.Logic/DOM/Synthesized/CCodeCloneVirtualMethod.cs:26-31 | a heap `new` of the type with exactly one argument, the indirection of `this` |
| CloneVirtualMethod.CloneVirtualMethod.constructor | Il2Native.Logic/DOM/Synthesized/CCodeCloneVirtualMethod.cs:11-35 | the declaration's method is a fresh clone method for the type, and its body is exactly one return statement of that copy, owned by that method |
| CloneVirtualMethod.CloneBaseAndDerived | Il2Native.Logic/DOM/Synthesized/CCodeCloneVirtualMethod.cs:39-49 | for a root type and a type derived from it, only the derived clone is an override; both are virtual, return the same object type, take no parameters and copy their own type |
| CloneVirtualMethod.NullCheckUnreachableAsWritten | Il2Native.Logic/DOM/Synthesized/CCodeCloneVirtualMethod.cs:11-17 | as written, a null type throws a NullReferenceException from the base-constructor argument, so the ArgumentNullException is never thrown |
| CloneVirtualMethod.CheckedRejectsNull | Il2Native.Logic/DOM/Synthesized/CCodeCloneVirtualMethod.cs:14-17 | with the check first, the ArgumentNullException is thrown exactly for a null type, and a non-null type is built as before |

## Left out

- Files and folders: creating directories, `StreamWriter`, `Path.Combine` and
  the output folder are not modelled. A file is its list of directory
  segments, its name and its text.
- `WriteBuildFiles` and `WriteTo` are not modelled: the build templates hold
  no logic beyond one replacement each.
- `WriteMethodBody` and the method-body serializer are not modelled. The
  `WriteTo` of declarations and definitions is polymorphic and not part of
  this model. Member declarations and definitions are given strings.
- Indentation of `IndentedTextWriter` is not modelled.
- Every `WriteLine` is modelled as the single character `\n`. The real writer
  ends a line with its inner writer's `NewLine`, which depends on the
  platform (`\r\n` on Windows). The brace and line-count lemmas count `\n`
  only.
- `CleanUpName`, `CleanUpNameAllUnderscore` and `EnumNamespaces` are foreign
  code. They are parameters or given data, and nothing is assumed about them
  except where a lemma requires it, such as plain mangler output for the
  brace lemmas.
- Text written before an exception is not modelled: a call that throws
  yields only the exception.
- UnitWriter.HeaderText, UnitWriter.SourcePath: a unit type without a
  containing namespace is excluded by a precondition. The code would throw a
  NullReferenceException there.
- TypeWriter.TypeSuffix: the cast to a named type in the default case would
  fail for a kind that is not a named type. The model writes the nested name
  for every such kind.
- CloneVirtualMethod.NamedTypeImpl: only its special type is modelled.
  `ValueTypeAsClassTypeImpl` in the commented-out code is not modelled.
- CloneVirtualMethod.CloneVirtualMethod.constructor: a null type cannot be
  passed to the class model. The null case is modelled by the
  `Construction` values of the finding below.
- A `.cpp` file-name collision is reproduced as in the code, not detected.
  The file name uses only the type's own metadata name, so a nested type
  `A.B` and a top-level `B` of the same namespace get the same path.
- `c_declarations.c` and the forward-declaration resource are given strings.

## Findings

| source | as written | input that shows it | evidently intended | confidence | as-written member | corrected member |
|---|---|---|---|---|---|---|
| Il2Native.Logic/DOM/Synthesized/CCodeCloneVirtualMethod.cs:12-17 | the base-constructor argument `new CCodeCloneMethod(type)` runs before the body's null check and reads `type.BaseType` (line 46) | `type == null` | a null type is rejected with `ArgumentNullException("type")` | not executed | CloneVirtualMethod.NullCheckUnreachableAsWritten | CloneVirtualMethod.CheckedRejectsNull |
