/**
  The project emitter: the shared header with its two passes (forward
  declarations, then full declarations), one source file per compilation
  unit, and the paths both are written to, relative to the assembly's output
  folder.
*/
module UnitWriter {
  import opened Symbols
  import opened Text
  import opened TypeWriter

  datatype AssemblyIdentity = AssemblyIdentity(name: string)

  /** A compilation unit: its type, and the text each of its declarations
      (for the header) and definitions (for its source file) writes. */
  datatype CodeUnit = CodeUnit(unitType: TypeSymbol, declarations: seq<string>, definitions: seq<string>)

  /** A file of the generated project: its folders below the assembly's
      output folder, its name and its text. */
  datatype OutputFile = OutputFile(directory: seq<string>, fileName: string, text: string)

  const ASSEMBLY_NAME_PLACEHOLDER: string := "<<%assemblyName%>>"

  // ---------------------------------------------------------------------------
  // String.Replace
  // ---------------------------------------------------------------------------

  /** Every occurrence of `pattern`, scanning left to right without overlaps,
      replaced by `replacement`. */
  function ReplaceAll(s: string, pattern: string, replacement: string): string
    requires |pattern| > 0
    decreases |s|
  {
    if |s| < |pattern| then s
    else if s[..|pattern|] == pattern then replacement + ReplaceAll(s[|pattern|..], pattern, replacement)
    else [s[0]] + ReplaceAll(s[1..], pattern, replacement)
  }

  predicate StartsWith(s: string, prefix: string)
  {
    |prefix| <= |s| && s[..|prefix|] == prefix
  }

  /** `pattern` occurs somewhere in `s`. */
  predicate Occurs(pattern: string, s: string)
  {
    exists i :: 0 <= i <= |s| && StartsWith(s[i..], pattern)
  }

  /** A boilerplate resource with the assembly name put in. */
  function Substituted(resource: string, identity: AssemblyIdentity): string
  {
    ReplaceAll(resource, ASSEMBLY_NAME_PLACEHOLDER, identity.name)
  }

  // ---------------------------------------------------------------------------
  // Header text
  // ---------------------------------------------------------------------------

  predicate HasNamespace(u: CodeUnit)
  {
    u.unitType.containingNamespace.Some?
  }

  /** The namespace chain of a unit's type, outermost first. */
  function UnitNamespaces(u: CodeUnit): seq<NamespaceNode>
    requires HasNamespace(u)
  {
    u.unitType.containingNamespace.value
  }

  function NamespaceOpener(clean: string -> string, node: NamespaceNode): string
  {
    "namespace " + NamespaceName(clean, node) + " { "
  }

  /** One opener per namespace node, outermost first. */
  function NamespaceOpeners(clean: string -> string, nodes: seq<NamespaceNode>): string
  {
    if |nodes| == 0 then ""
    else NamespaceOpeners(clean, nodes[..|nodes| - 1]) + NamespaceOpener(clean, nodes[|nodes| - 1])
  }

  function TypeKeyword(t: TypeSymbol): string
  {
    if t.isValueType then "struct" else "class"
  }

  function TemplatePreamble(clean: string -> string, t: TypeSymbol): string
  {
    if t.isGenericType then TemplateDeclaration(clean, t) else ""
  }

  /** The part both passes share: template preamble, `struct` or `class`, name. */
  function TypeHead(clean: string -> string, t: TypeSymbol): string
  {
    TemplatePreamble(clean, t) + TypeKeyword(t) + " " + TypeName(clean, t)
  }

  /** Pass one: one line announcing the type inside its namespaces (CCodeSerializer.cs lines 566-593). */
  function ForwardDeclaration(clean: string -> string, u: CodeUnit): string
    requires HasNamespace(u)
  {
    var nodes := UnitNamespaces(u);
    NamespaceOpeners(clean, nodes) + TypeHead(clean, u.unitType) + "; " + Repeat("}", |nodes|) + "\n"
  }

  /** The inheritance clause; writing the base type's full name can throw. */
  function BaseClause(clean: string -> string, t: TypeSymbol): Result<string>
  {
    if t.baseType.Some? then Wrapped(TypeFullName(clean, t.baseType.value), " : public ", "") else Ok("")
  }

  /** Pass two: the type with its base, its `public:` label and every member
      declaration (CCodeSerializer.cs lines 597-650). */
  function FullDeclaration(clean: string -> string, u: CodeUnit): Result<string>
    requires HasNamespace(u)
  {
    var nodes := UnitNamespaces(u);
    match BaseClause(clean, u.unitType)
    case Fail(f) => Fail(f)
    case Ok(base) =>
      Ok(NamespaceOpeners(clean, nodes) + (if |nodes| > 0 then "\n" else "")
         + TypeHead(clean, u.unitType) + base + "\n"
         + "{\n" + "public:\n" + Concat(u.declarations) + "};\n"
         + Repeat("}", |nodes|) + "\n")
  }

  predicate AllHaveNamespace(units: seq<CodeUnit>)
  {
    forall i :: 0 <= i < |units| ==> HasNamespace(units[i])
  }

  function ForwardSection(clean: string -> string, units: seq<CodeUnit>): string
    requires AllHaveNamespace(units)
  {
    if |units| == 0 then ""
    else ForwardSection(clean, units[..|units| - 1]) + ForwardDeclaration(clean, units[|units| - 1])
  }

  /** The full declarations in unit order; the first unit that throws decides. */
  function FullSection(clean: string -> string, units: seq<CodeUnit>): Result<string>
    requires AllHaveNamespace(units)
  {
    if |units| == 0 then Ok("")
    else
      match FullSection(clean, units[..|units| - 1])
      case Fail(f) => Fail(f)
      case Ok(before) =>
        match FullDeclaration(clean, units[|units| - 1])
        case Fail(f) => Fail(f)
        case Ok(full) => Ok(before + full)
  }

  /** What WriteHeader writes: for the core library, its forward-declaration
      boilerplate first and its declaration boilerplate last. */
  function HeaderText(clean: string -> string, identity: AssemblyIdentity, isCoreLib: bool,
                      forwardResource: string, declarationsResource: string, units: seq<CodeUnit>): Result<string>
    requires AllHaveNamespace(units)
  {
    match FullSection(clean, units)
    case Fail(f) => Fail(f)
    case Ok(fulls) =>
      Ok(Prologue(identity, isCoreLib, forwardResource) + ForwardSection(clean, units) + "\n" + fulls
         + Epilogue(identity, isCoreLib, declarationsResource))
  }

  /** The core library's forward-declaration boilerplate (CCodeSerializer.cs lines 560-564). */
  function Prologue(identity: AssemblyIdentity, isCoreLib: bool, forwardResource: string): string
  {
    if isCoreLib then Substituted(forwardResource, identity) + "\n" else ""
  }

  /** The core library's declaration boilerplate (CCodeSerializer.cs lines 652-657). */
  function Epilogue(identity: AssemblyIdentity, isCoreLib: bool, declarationsResource: string): string
  {
    if isCoreLib then "\n" + Substituted(declarationsResource, identity) + "\n" else ""
  }

  /** GetPath(name, ".h", "src"): the shared header's place. */
  function HeaderPath(identity: AssemblyIdentity): (seq<string>, string)
  {
    (["src"], identity.name + ".h")
  }

  function HeaderFile(clean: string -> string, identity: AssemblyIdentity, isCoreLib: bool,
                      forwardResource: string, declarationsResource: string, units: seq<CodeUnit>): Result<OutputFile>
    requires AllHaveNamespace(units)
  {
    match HeaderText(clean, identity, isCoreLib, forwardResource, declarationsResource, units)
    case Fail(f) => Fail(f)
    case Ok(text) => Ok(OutputFile(HeaderPath(identity).0, HeaderPath(identity).1, text))
  }

  // ---------------------------------------------------------------------------
  // Header writer
  // ---------------------------------------------------------------------------

  method WriteNamespaceOpeners(clean: string -> string, nodes: seq<NamespaceNode>) returns (text: string)
    ensures text == NamespaceOpeners(clean, nodes)
  {
    text := "";
    for i := 0 to |nodes|
      invariant text == NamespaceOpeners(clean, nodes[..i])
    {
      assert nodes[..i + 1][..i] == nodes[..i];
      text := text + "namespace " + NamespaceName(clean, nodes[i]) + " { ";
    }
    assert nodes[..|nodes|] == nodes;
  }

  method WriteNamespaceClosers(count: nat) returns (text: string)
    ensures text == Repeat("}", count)
  {
    text := "";
    for i := 0 to count
      invariant text == Repeat("}", i)
    {
      RepeatSnoc("}", i);
      text := text + "}";
    }
  }

  method WriteTypeHead(clean: string -> string, t: TypeSymbol) returns (text: string)
    ensures text == TypeHead(clean, t)
  {
    text := "";
    if t.isGenericType {
      text := WriteTemplateDeclaration(clean, t);
    }
    text := text + (if t.isValueType then "struct" else "class") + " " + TypeName(clean, t);
  }

  /** One forward declaration, as the first loop of WriteHeader writes it. */
  method WriteForwardDeclaration(clean: string -> string, u: CodeUnit) returns (text: string)
    requires HasNamespace(u)
    ensures text == ForwardDeclaration(clean, u)
  {
    text := WriteNamespaceOpeners(clean, UnitNamespaces(u));
    var head := WriteTypeHead(clean, u.unitType);
    text := text + head + "; ";
    var closers := WriteNamespaceClosers(|UnitNamespaces(u)|);
    text := text + closers + "\n";
  }

  method WriteBaseClause(clean: string -> string, t: TypeSymbol) returns (r: Result<string>)
    ensures r == BaseClause(clean, t)
  {
    var text := "";
    if t.baseType.Some? {
      var baseName := TypeFullName(clean, t.baseType.value);
      if baseName.Fail? {
        return Fail(baseName.failure);
      }
      text := text + " : public " + baseName.value;
      assert " : public " + baseName.value + "" == text;
    }
    r := Ok(text);
  }

  /** The member loop: every declaration of the unit, in order. */
  method WriteMembers(declarations: seq<string>) returns (text: string)
    ensures text == Concat(declarations)
  {
    text := "";
    for i := 0 to |declarations|
      invariant text == Concat(declarations[..i])
    {
      ConcatSnoc(declarations[..i], declarations[i]);
      assert declarations[..i + 1] == declarations[..i] + [declarations[i]];
      text := text + declarations[i];
    }
    assert declarations[..|declarations|] == declarations;
  }

  /** One full declaration, as the second loop of WriteHeader writes it. */
  method WriteFullDeclaration(clean: string -> string, u: CodeUnit) returns (r: Result<string>)
    requires HasNamespace(u)
    ensures r == FullDeclaration(clean, u)
  {
    var nodes := UnitNamespaces(u);
    var text := WriteNamespaceOpeners(clean, nodes);
    if |nodes| > 0 {
      text := text + "\n";
    } else {
      assert text + "" == text;
    }
    var head := WriteTypeHead(clean, u.unitType);
    var base := WriteBaseClause(clean, u.unitType);
    if base.Fail? {
      return Fail(base.failure);
    }
    text := text + head + base.value + "\n" + "{\n" + "public:\n";
    var members := WriteMembers(u.declarations);
    text := text + members + "};\n";
    var closers := WriteNamespaceClosers(|nodes|);
    r := Ok(text + closers + "\n");
  }

  /** Once a unit's full declaration throws, the header throws that exception. */
  lemma {:induction false} FullSectionFailurePersists(clean: string -> string, units: seq<CodeUnit>, k: nat)
    requires AllHaveNamespace(units)
    requires k <= |units|
    requires FullSection(clean, units[..k]).Fail?
    ensures FullSection(clean, units) == FullSection(clean, units[..k])
    decreases |units| - k
  {
    if k < |units| {
      assert units[..k + 1][..k] == units[..k];
      FullSectionFailurePersists(clean, units, k + 1);
    } else {
      assert units[..k] == units;
    }
  }

  /** The first loop of WriteHeader: every unit's forward declaration. */
  method WriteForwardPass(clean: string -> string, units: seq<CodeUnit>) returns (text: string)
    requires AllHaveNamespace(units)
    ensures text == ForwardSection(clean, units)
  {
    text := "";
    for i := 0 to |units|
      invariant text == ForwardSection(clean, units[..i])
    {
      assert units[..i + 1][..i] == units[..i];
      var forward := WriteForwardDeclaration(clean, units[i]);
      text := text + forward;
    }
    assert units[..|units|] == units;
  }

  /** The second loop of WriteHeader: every unit's full declaration, until
      one throws. */
  method WriteFullPass(clean: string -> string, units: seq<CodeUnit>) returns (r: Result<string>)
    requires AllHaveNamespace(units)
    ensures r == FullSection(clean, units)
  {
    var text := "";
    for i := 0 to |units|
      invariant FullSection(clean, units[..i]) == Ok(text)
    {
      assert units[..i + 1][..i] == units[..i];
      var full := WriteFullDeclaration(clean, units[i]);
      if full.Fail? {
        FullSectionFailurePersists(clean, units, i + 1);
        return Fail(full.failure);
      }
      text := text + full.value;
    }
    assert units[..|units|] == units;
    r := Ok(text);
  }

  /** WriteHeader: the header file, or the exception a base type's name throws. */
  method WriteHeader(clean: string -> string, identity: AssemblyIdentity, isCoreLib: bool,
                     forwardResource: string, declarationsResource: string, units: seq<CodeUnit>)
    returns (r: Result<OutputFile>)
    requires AllHaveNamespace(units)
    ensures r == HeaderFile(clean, identity, isCoreLib, forwardResource, declarationsResource, units)
  {
    var prologue := "";
    if isCoreLib {
      prologue := Substituted(forwardResource, identity) + "\n";
    }
    var forwards := WriteForwardPass(clean, units);
    var fulls := WriteFullPass(clean, units);
    if fulls.Fail? {
      return Fail(fulls.failure);
    }
    var epilogue := "";
    if isCoreLib {
      epilogue := "\n" + Substituted(declarationsResource, identity) + "\n";
    }
    var text := prologue + forwards + "\n" + fulls.value + epilogue;
    r := Ok(OutputFile(["src"], identity.name + ".h", text));
  }

  // ---------------------------------------------------------------------------
  // Source files and their paths
  // ---------------------------------------------------------------------------

  /** The namespace nodes other than the global one, in order. */
  function NonGlobal(nodes: seq<NamespaceNode>): (r: seq<NamespaceNode>)
    ensures |r| <= |nodes|
    ensures forall n :: n in r <==> n in nodes && !n.IsGlobalNamespace()
    ensures forall i :: 0 <= i < |r| ==> r[i].Namespace?
  {
    if |nodes| == 0 then []
    else
      NonGlobal(nodes[..|nodes| - 1])
      + (if nodes[|nodes| - 1].IsGlobalNamespace() then [] else [nodes[|nodes| - 1]])
  }

  /** Where GetPath(unit) puts a unit's source file, and the nesting level it
      reports. */
  datatype UnitPath = UnitPath(directory: seq<string>, fileName: string, nestedLevel: nat)

  function FolderNames(flat: string -> string, nodes: seq<NamespaceNode>): (r: seq<string>)
    requires forall i :: 0 <= i < |nodes| ==> nodes[i].Namespace?
    ensures |r| == |nodes|
    ensures forall i :: 0 <= i < |nodes| ==> r[i] == flat(nodes[i].metadataName)
  {
    seq(|nodes|, i requires 0 <= i < |nodes| => flat(nodes[i].metadataName))
  }

  /** GetPath(unit): `src`, then one folder per non-global namespace, and the
      flattened metadata name with `.cpp`; the nesting level is the number
      of those folders. */
  function SourcePath(flat: string -> string, u: CodeUnit): (p: UnitPath)
    requires HasNamespace(u)
    ensures p.nestedLevel + 1 == |p.directory| && p.directory[0] == "src"
    ensures p.nestedLevel == |NonGlobal(UnitNamespaces(u))|
    ensures p.directory[1..] == FolderNames(flat, NonGlobal(UnitNamespaces(u)))
    ensures p.fileName == flat(u.unitType.metadataName) + ".cpp"
  {
    var folders := NonGlobal(UnitNamespaces(u));
    UnitPath(["src"] + FolderNames(flat, folders), flat(u.unitType.metadataName) + ".cpp", |folders|)
  }

  /** The relative header path of the include line: one `..\` per level. */
  function IncludePath(identity: AssemblyIdentity, nestedLevel: nat): string
  {
    Repeat("..\\", nestedLevel) + identity.name + ".h"
  }

  function SourceText(identity: AssemblyIdentity, nestedLevel: nat, u: CodeUnit): string
  {
    "#include \"" + IncludePath(identity, nestedLevel) + "\"\n" + Concat(u.definitions)
  }

  function SourceFile(flat: string -> string, identity: AssemblyIdentity, u: CodeUnit): OutputFile
    requires HasNamespace(u)
  {
    var p := SourcePath(flat, u);
    OutputFile(p.directory, p.fileName, SourceText(identity, p.nestedLevel, u))
  }

  /** One iteration of WriteSources. */
  method WriteSource(flat: string -> string, identity: AssemblyIdentity, u: CodeUnit) returns (file: OutputFile)
    requires HasNamespace(u)
    ensures file == SourceFile(flat, identity, u)
  {
    var p := SourcePath(flat, u);
    var ups := "";
    for i := 0 to p.nestedLevel
      invariant ups == Repeat("..\\", i)
    {
      RepeatSnoc("..\\", i);
      ups := ups + "..\\";
    }
    var text := "#include \"" + (ups + identity.name + ".h") + "\"\n";
    ghost var head := text;
    for i := 0 to |u.definitions|
      invariant text == head + Concat(u.definitions[..i])
    {
      ConcatSnoc(u.definitions[..i], u.definitions[i]);
      assert u.definitions[..i + 1] == u.definitions[..i] + [u.definitions[i]];
      text := text + u.definitions[i];
    }
    assert u.definitions[..|u.definitions|] == u.definitions;
    file := OutputFile(p.directory, p.fileName, text);
  }

  /** WriteSources: one source file per unit, in unit order. */
  method WriteSources(flat: string -> string, identity: AssemblyIdentity, units: seq<CodeUnit>)
    returns (files: seq<OutputFile>)
    requires AllHaveNamespace(units)
    ensures |files| == |units|
    ensures forall i :: 0 <= i < |units| ==> files[i] == SourceFile(flat, identity, units[i])
  {
    files := [];
    for i := 0 to |units|
      invariant |files| == i
      invariant forall k :: 0 <= k < i ==> files[k] == SourceFile(flat, identity, units[k])
    {
      var file := WriteSource(flat, identity, units[i]);
      files := files + [file];
    }
  }
}
