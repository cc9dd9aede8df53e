/**
  Properties of the project emitter: the header's block structure, when the
  header can be written, where the include line of a source file leads, and
  the boilerplate substitution.
*/
module UnitLemmas {
  import opened Symbols
  import opened Text
  import opened TypeWriter
  import opened TypeLemmas
  import opened PlainText
  import opened UnitWriter

  // ---------------------------------------------------------------------------
  // Counting braces and line breaks
  // ---------------------------------------------------------------------------

  /** How often `c` occurs in `s`. */
  function Count(s: string, c: char): nat
  {
    if |s| == 0 then 0 else (if s[0] == c then 1 else 0) + Count(s[1..], c)
  }

  lemma {:induction false} CountAppend(a: string, b: string)
    ensures forall c :: Count(a + b, c) == Count(a, c) + Count(b, c)
  {
    if |a| > 0 {
      CountAppend(a[1..], b);
      assert (a + b)[1..] == a[1..] + b;
    } else {
      assert a + b == b;
    }
  }

  lemma PlainAppend(a: string, b: string)
    requires Plain(a) && Plain(b)
    ensures Plain(a + b)
  {
  }

  lemma {:induction false} CountPlain(s: string)
    requires Plain(s)
    ensures Count(s, '{') == 0 && Count(s, '}') == 0 && Count(s, '\n') == 0
  {
    if |s| > 0 {
      assert s[0] in s;
      CountPlain(s[1..]);
    }
  }

  lemma OpenerCount(clean: string -> string, node: NamespaceNode)
    requires CleanIsPlain(clean)
    requires node.Namespace? ==> Plain(node.metadataName)
    ensures Count(NamespaceOpener(clean, node), '{') == 1
    ensures Count(NamespaceOpener(clean, node), '}') == 0
    ensures Count(NamespaceOpener(clean, node), '\n') == 0
  {
    var name := NamespaceName(clean, node);
    assert Plain(name) by {
      if node.GlobalNamespace? {
        assert Plain(clean(node.assemblyMetadataName));
      }
    }
    var head := "namespace " + name;
    assert Plain(head);
    CountPlain(head);
    OpenBraceCount();
    assert NamespaceOpener(clean, node) == head + " { ";
    CountAppend(head, " { ");
  }

  lemma OpenBraceCount()
    ensures Count(" { ", '{') == 1 && Count(" { ", '}') == 0 && Count(" { ", '\n') == 0
  {
    assert " { "[1..] == "{ " && "{ "[1..] == " " && " "[1..] == "";
  }

  lemma {:induction false} OpenersCount(clean: string -> string, nodes: seq<NamespaceNode>)
    requires CleanIsPlain(clean) && NodesPlain(nodes)
    ensures Count(NamespaceOpeners(clean, nodes), '{') == |nodes|
    ensures Count(NamespaceOpeners(clean, nodes), '}') == 0
    ensures Count(NamespaceOpeners(clean, nodes), '\n') == 0
  {
    if |nodes| > 0 {
      var init := nodes[..|nodes| - 1];
      var last := nodes[|nodes| - 1];
      assert NodesPlain(init) by {
        assert forall i :: 0 <= i < |init| ==> init[i] == nodes[i];
      }
      OpenersCount(clean, init);
      OpenerCount(clean, last);
      var before := NamespaceOpeners(clean, init);
      var opener := NamespaceOpener(clean, last);
      assert NamespaceOpeners(clean, nodes) == before + opener;
      CountAppend(before, opener);
    }
  }

  lemma {:induction false} ClosersCount(n: nat)
    ensures Count(Repeat("}", n), '}') == n
    ensures Count(Repeat("}", n), '{') == 0
    ensures Count(Repeat("}", n), '\n') == 0
  {
    if n > 0 {
      ClosersCount(n - 1);
      assert Repeat("}", n) == "}" + Repeat("}", n - 1);
      CountAppend("}", Repeat("}", n - 1));
    }
  }

  lemma TypeHeadPlain(clean: string -> string, t: TypeSymbol)
    requires CleanIsPlain(clean)
    ensures Plain(TypeHead(clean, t))
  {
    TypeNamePlain(clean, t);
    if t.isGenericType {
      TemplateDeclarationPlain(clean, t);
    }
  }

  /** A forward declaration is one line holding one `{` and one `}` per
      namespace. */
  lemma ForwardDeclarationBlocks(clean: string -> string, u: CodeUnit)
    requires HasNamespace(u) && CleanIsPlain(clean) && NodesPlain(UnitNamespaces(u))
    ensures Count(ForwardDeclaration(clean, u), '{') == |UnitNamespaces(u)|
    ensures Count(ForwardDeclaration(clean, u), '}') == |UnitNamespaces(u)|
    ensures Count(ForwardDeclaration(clean, u), '\n') == 1
    ensures ForwardDeclaration(clean, u)[|ForwardDeclaration(clean, u)| - 1] == '\n'
  {
    var nodes := UnitNamespaces(u);
    var openers := NamespaceOpeners(clean, nodes);
    var head := TypeHead(clean, u.unitType);
    var closers := Repeat("}", |nodes|);
    OpenersCount(clean, nodes);
    ClosersCount(|nodes|);
    TypeHeadPlain(clean, u.unitType);
    CountPlain(head);
    CountPlain("; ");
    assert ForwardDeclaration(clean, u) == (((openers + head) + "; ") + closers) + "\n";
    CountAppend(openers, head);
    CountAppend(openers + head, "; ");
    CountAppend(openers + head + "; ", closers);
    CountAppend(openers + head + "; " + closers, "\n");
  }

  predicate UnitsPlain(units: seq<CodeUnit>)
    requires AllHaveNamespace(units)
  {
    forall i :: 0 <= i < |units| ==> NodesPlain(UnitNamespaces(units[i]))
  }

  /** Pass one writes one line per unit, with as many `}` as `{`. */
  lemma {:induction false} ForwardSectionLines(clean: string -> string, units: seq<CodeUnit>)
    requires AllHaveNamespace(units) && CleanIsPlain(clean) && UnitsPlain(units)
    ensures Count(ForwardSection(clean, units), '\n') == |units|
    ensures Count(ForwardSection(clean, units), '{') == Count(ForwardSection(clean, units), '}')
  {
    if |units| > 0 {
      var init := units[..|units| - 1];
      assert forall i :: 0 <= i < |init| ==> init[i] == units[i];
      ForwardSectionLines(clean, init);
      var last := ForwardDeclaration(clean, units[|units| - 1]);
      ForwardDeclarationBlocks(clean, units[|units| - 1]);
      assert ForwardSection(clean, units) == ForwardSection(clean, init) + last;
      CountAppend(ForwardSection(clean, init), last);
    }
  }

  predicate BracesBalanced(s: string)
  {
    Count(s, '{') == Count(s, '}')
  }

  /** The names a full declaration writes are plain: its namespaces, and
      everything the base type's full name reaches. */
  predicate FullDeclarationPlain(u: CodeUnit)
    requires HasNamespace(u)
  {
    NodesPlain(UnitNamespaces(u)) && (u.unitType.baseType.Some? ==> PlainNames(u.unitType.baseType.value))
  }

  /** A full declaration holds as many `}` as `{`: the namespaces and the
      class body, given member declarations that do. */
  lemma FullDeclarationBlocks(clean: string -> string, u: CodeUnit)
    requires HasNamespace(u) && CleanIsPlain(clean) && FullDeclarationPlain(u)
    requires BracesBalanced(Concat(u.declarations))
    requires FullDeclaration(clean, u).Ok?
    ensures Count(FullDeclaration(clean, u).value, '{') == |UnitNamespaces(u)| + 1 + Count(Concat(u.declarations), '{')
    ensures BracesBalanced(FullDeclaration(clean, u).value)
  {
    var nodes := UnitNamespaces(u);
    var openers := NamespaceOpeners(clean, nodes);
    var head := TypeHead(clean, u.unitType);
    var base := BaseClause(clean, u.unitType).value;
    var members := Concat(u.declarations);
    var closers := Repeat("}", |nodes|);
    OpenersCount(clean, nodes);
    ClosersCount(|nodes|);
    TypeHeadPlain(clean, u.unitType);
    BaseClausePlain(clean, u.unitType);
    var lead := if |nodes| > 0 then "\n" else "";
    CountPlain(head);
    CountPlain(base);
    BodyBraceCounts();
    DeclarationLayoutCounts(openers, lead, head, base, members, closers);
  }

  lemma BaseClausePlain(clean: string -> string, t: TypeSymbol)
    requires CleanIsPlain(clean) && (t.baseType.Some? ==> PlainNames(t.baseType.value))
    ensures BaseClause(clean, t).Ok? ==> Plain(BaseClause(clean, t).value)
  {
    if t.baseType.Some? {
      TypeFullNamePlain(clean, t.baseType.value);
    }
  }

  /** Brace counts of the layout a full declaration is written in, left to
      right. */
  lemma DeclarationLayoutCounts(openers: string, lead: string, head: string, base: string,
                                members: string, closers: string)
    requires Count(lead, '{') == 0 && Count(lead, '}') == 0
    requires Count(head, '{') == 0 && Count(head, '}') == 0
    requires Count(base, '{') == 0 && Count(base, '}') == 0
    requires Count(openers, '}') == 0 && Count(closers, '{') == 0
    ensures Count(openers + lead + head + base + "\n" + "{\n" + "public:\n" + members + "};\n" + closers + "\n", '{')
         == Count(openers, '{') + 1 + Count(members, '{')
    ensures Count(openers + lead + head + base + "\n" + "{\n" + "public:\n" + members + "};\n" + closers + "\n", '}')
         == Count(closers, '}') + 1 + Count(members, '}')
  {
    BodyBraceCounts();
    CountAppend(openers, lead);
    CountAppend(openers + lead, head);
    CountAppend(openers + lead + head, base);
    CountAppend(openers + lead + head + base, "\n");
    CountAppend(openers + lead + head + base + "\n", "{\n");
    CountAppend(openers + lead + head + base + "\n" + "{\n", "public:\n");
    CountAppend(openers + lead + head + base + "\n" + "{\n" + "public:\n", members);
    CountAppend(openers + lead + head + base + "\n" + "{\n" + "public:\n" + members, "};\n");
    CountAppend(openers + lead + head + base + "\n" + "{\n" + "public:\n" + members + "};\n", closers);
    CountAppend(openers + lead + head + base + "\n" + "{\n" + "public:\n" + members + "};\n" + closers, "\n");
  }

  lemma BodyBraceCounts()
    ensures Count("{\n", '{') == 1 && Count("{\n", '}') == 0
    ensures Count("};\n", '{') == 0 && Count("};\n", '}') == 1
    ensures Count("\n", '{') == 0 && Count("\n", '}') == 0
    ensures Count("public:\n", '{') == 0 && Count("public:\n", '}') == 0
  {
    NewlineCount();
    BodyOpenCount();
    BodyCloseCount();
    PublicLabelCount();
  }

  lemma NewlineCount()
    ensures Count("\n", '{') == 0 && Count("\n", '}') == 0
  {
    assert "\n"[1..] == "";
  }

  lemma BodyOpenCount()
    ensures Count("{\n", '{') == 1 && Count("{\n", '}') == 0
  {
    assert "{\n"[1..] == "\n";
    NewlineCount();
  }

  lemma BodyCloseCount()
    ensures Count("};\n", '{') == 0 && Count("};\n", '}') == 1
  {
    assert "};\n"[1..] == ";\n" && ";\n"[1..] == "\n";
    NewlineCount();
  }

  lemma PublicLabelCount()
    ensures Count("public:\n", '{') == 0 && Count("public:\n", '}') == 0
  {
    NewlineCount();
    CountPlain("public:");
    CountAppend("public:", "\n");
  }

  predicate MembersBalanced(units: seq<CodeUnit>)
  {
    forall i :: 0 <= i < |units| ==> BracesBalanced(Concat(units[i].declarations))
  }

  predicate AllFullDeclarationsPlain(units: seq<CodeUnit>)
    requires AllHaveNamespace(units)
  {
    forall i :: 0 <= i < |units| ==> FullDeclarationPlain(units[i])
  }

  lemma {:induction false} FullSectionBalanced(clean: string -> string, units: seq<CodeUnit>)
    requires AllHaveNamespace(units) && CleanIsPlain(clean)
    requires AllFullDeclarationsPlain(units) && MembersBalanced(units)
    requires FullSection(clean, units).Ok?
    ensures BracesBalanced(FullSection(clean, units).value)
  {
    if |units| > 0 {
      var init := units[..|units| - 1];
      assert forall i :: 0 <= i < |init| ==> init[i] == units[i];
      FullSectionBalanced(clean, init);
      FullDeclarationBlocks(clean, units[|units| - 1]);
      var before := FullSection(clean, init).value;
      var last := FullDeclaration(clean, units[|units| - 1]).value;
      assert FullSection(clean, units).value == before + last;
      CountAppend(before, last);
    }
  }

  /** The whole header holds as many `}` as `{`, when the boilerplate and
      the member declarations do. */
  lemma HeaderBalanced(clean: string -> string, identity: AssemblyIdentity, isCoreLib: bool,
                       forwardResource: string, declarationsResource: string, units: seq<CodeUnit>)
    requires AllHaveNamespace(units) && CleanIsPlain(clean)
    requires UnitsPlain(units) && AllFullDeclarationsPlain(units) && MembersBalanced(units)
    requires BracesBalanced(Prologue(identity, isCoreLib, forwardResource))
    requires BracesBalanced(Epilogue(identity, isCoreLib, declarationsResource))
    requires HeaderText(clean, identity, isCoreLib, forwardResource, declarationsResource, units).Ok?
    ensures BracesBalanced(HeaderText(clean, identity, isCoreLib, forwardResource, declarationsResource, units).value)
  {
    ForwardSectionLines(clean, units);
    FullSectionBalanced(clean, units);
    var prologue := Prologue(identity, isCoreLib, forwardResource);
    var forwards := ForwardSection(clean, units);
    var fulls := FullSection(clean, units).value;
    var epilogue := Epilogue(identity, isCoreLib, declarationsResource);
    BodyBraceCounts();
    assert HeaderText(clean, identity, isCoreLib, forwardResource, declarationsResource, units).value
        == prologue + forwards + "\n" + fulls + epilogue;
    CountAppend(prologue, forwards);
    CountAppend(prologue + forwards, "\n");
    CountAppend(prologue + forwards + "\n", fulls);
    CountAppend(prologue + forwards + "\n" + fulls, epilogue);
  }

  // ---------------------------------------------------------------------------
  // When the header can be written
  // ---------------------------------------------------------------------------

  predicate BaseSupported(t: TypeSymbol)
  {
    t.baseType.Some? ==> FullNameSupported(t.baseType.value)
  }

  /** WriteHeader throws exactly when the full name of some unit's base type
      cannot be written. */
  lemma {:induction false} FullSectionOkIffBasesSupported(clean: string -> string, units: seq<CodeUnit>)
    requires AllHaveNamespace(units)
    ensures FullSection(clean, units).Ok? <==> AllBasesSupported(units)
  {
    if |units| > 0 {
      var init := units[..|units| - 1];
      var last := units[|units| - 1];
      FullSectionOkIffBasesSupported(clean, init);
      FullDeclarationOkIffBaseSupported(clean, last);
      AllBasesSupportedSnoc(units);
    }
  }

  predicate AllBasesSupported(units: seq<CodeUnit>)
  {
    forall i :: 0 <= i < |units| ==> BaseSupported(units[i].unitType)
  }

  lemma AllBasesSupportedSnoc(units: seq<CodeUnit>)
    requires |units| > 0
    ensures AllBasesSupported(units)
        <==> AllBasesSupported(units[..|units| - 1]) && BaseSupported(units[|units| - 1].unitType)
  {
    var init := units[..|units| - 1];
    assert forall i :: 0 <= i < |init| ==> init[i] == units[i];
  }

  /** One unit's full declaration throws exactly when its base type's full
      name cannot be written. */
  lemma FullDeclarationOkIffBaseSupported(clean: string -> string, u: CodeUnit)
    requires HasNamespace(u)
    ensures FullDeclaration(clean, u).Ok? <==> BaseSupported(u.unitType)
  {
    if u.unitType.baseType.Some? {
      TypeFullNameOkIffSupported(clean, u.unitType.baseType.value);
    }
  }

  lemma HeaderOkIffBasesSupported(clean: string -> string, identity: AssemblyIdentity, isCoreLib: bool,
                                  forwardResource: string, declarationsResource: string, units: seq<CodeUnit>)
    requires AllHaveNamespace(units)
    ensures HeaderText(clean, identity, isCoreLib, forwardResource, declarationsResource, units).Ok?
        <==> forall i :: 0 <= i < |units| ==> BaseSupported(units[i].unitType)
  {
    FullSectionOkIffBasesSupported(clean, units);
  }

  // ---------------------------------------------------------------------------
  // Where the include line leads
  // ---------------------------------------------------------------------------

  /** Splits a relative path into its leading `..\` steps and the rest. */
  function ParseRelative(path: string): (nat, string)
    decreases |path|
  {
    if StartsWith(path, "..\\") then
      var (ups, rest) := ParseRelative(path[3..]);
      (ups + 1, rest)
    else (0, path)
  }

  /** The folder and file a relative path names, seen from `directory`. */
  function Resolve(directory: seq<string>, relative: string): Option<(seq<string>, string)>
  {
    var (ups, rest) := ParseRelative(relative);
    if ups <= |directory| then Some((directory[..|directory| - ups], rest)) else None
  }

  lemma {:induction false} ParseRepeat(n: nat, rest: string)
    requires !StartsWith(rest, "..\\")
    ensures ParseRelative(Repeat("..\\", n) + rest) == (n, rest)
  {
    if n > 0 {
      var path := Repeat("..\\", n) + rest;
      assert path == "..\\" + (Repeat("..\\", n - 1) + rest);
      assert StartsWith(path, "..\\");
      assert path[3..] == Repeat("..\\", n - 1) + rest;
      ParseRepeat(n - 1, rest);
    } else {
      assert Repeat("..\\", n) + rest == rest;
    }
  }

  /** Every source file's include line leads to the shared header: it steps
      up once per namespace folder, back to `src`. */
  lemma IncludeResolvesToHeader(flat: string -> string, identity: AssemblyIdentity, u: CodeUnit)
    requires HasNamespace(u) && '\\' !in identity.name
    ensures ParseRelative(IncludePath(identity, SourcePath(flat, u).nestedLevel)).0
         == |NonGlobal(UnitNamespaces(u))|
    ensures Resolve(SourcePath(flat, u).directory, IncludePath(identity, SourcePath(flat, u).nestedLevel))
         == Some(HeaderPath(identity))
  {
    var p := SourcePath(flat, u);
    var rest := identity.name + ".h";
    HeaderNameNotUp(identity.name);
    ParseRepeat(p.nestedLevel, rest);
    assert IncludePath(identity, p.nestedLevel) == Repeat("..\\", p.nestedLevel) + rest;
  }

  lemma HeaderNameNotUp(name: string)
    requires '\\' !in name
    ensures !StartsWith(name + ".h", "..\\")
  {
    var rest := name + ".h";
    if |rest| >= 3 {
      if |name| > 2 {
        assert rest[2] == name[2];
      } else if |name| == 2 {
        assert rest[2] == '.';
      } else {
        assert rest[2] == 'h';
      }
      assert rest[..3][2] == rest[2];
    }
  }

  /** A unit outside every named namespace includes the header without a
      `..\`, from `src` itself. */
  lemma TopLevelUnitIncludesDirectly(flat: string -> string, identity: AssemblyIdentity, u: CodeUnit)
    requires HasNamespace(u)
    requires forall i :: 0 <= i < |UnitNamespaces(u)| ==> UnitNamespaces(u)[i].IsGlobalNamespace()
    ensures SourcePath(flat, u).directory == ["src"]
    ensures SourceText(identity, SourcePath(flat, u).nestedLevel, u)
         == "#include \"" + identity.name + ".h\"\n" + Concat(u.definitions)
  {
    AllGlobalLeavesNoFolder(UnitNamespaces(u));
    assert IncludePath(identity, 0) == identity.name + ".h";
  }

  lemma {:induction false} AllGlobalLeavesNoFolder(nodes: seq<NamespaceNode>)
    requires forall i :: 0 <= i < |nodes| ==> nodes[i].IsGlobalNamespace()
    ensures NonGlobal(nodes) == []
  {
    if |nodes| > 0 {
      AllGlobalLeavesNoFolder(nodes[..|nodes| - 1]);
    }
  }

  // ---------------------------------------------------------------------------
  // Boilerplate substitution
  // ---------------------------------------------------------------------------

  /** Text without the placeholder is copied unchanged. */
  lemma {:induction false} ReplaceAllWithoutPattern(s: string, pattern: string, replacement: string)
    requires |pattern| > 0 && !Occurs(pattern, s)
    ensures ReplaceAll(s, pattern, replacement) == s
    decreases |s|
  {
    assert s[0..] == s;
    if |s| >= |pattern| {
      assert !Occurs(pattern, s[1..]) by {
        forall i | 0 <= i <= |s[1..]| ensures !StartsWith(s[1..][i..], pattern) {
          assert s[1..][i..] == s[i + 1..];
        }
      }
      ReplaceAllWithoutPattern(s[1..], pattern, replacement);
      assert [s[0]] + s[1..] == s;
    }
  }

  /** The placeholder on its own becomes the assembly name. */
  lemma PlaceholderBecomesName(identity: AssemblyIdentity)
    ensures Substituted(ASSEMBLY_NAME_PLACEHOLDER, identity) == identity.name
  {
    var p := ASSEMBLY_NAME_PLACEHOLDER;
    assert p[|p|..] == "";
    assert identity.name + "" == identity.name;
  }

  /** Substitution works piece by piece across a placeholder. */
  lemma SubstitutedAroundPlaceholder(after: string, identity: AssemblyIdentity)
    ensures Substituted(ASSEMBLY_NAME_PLACEHOLDER + after, identity)
         == identity.name + Substituted(after, identity)
  {
    var p := ASSEMBLY_NAME_PLACEHOLDER;
    var s := p + after;
    assert s[..|p|] == p;
    assert s[|p|..] == after;
  }

  // ---------------------------------------------------------------------------
  // The namespace folders, in order
  // ---------------------------------------------------------------------------

  /** Dropping the global namespace keeps the order and the repeats of the
      rest: filtering a concatenation filters each part. */
  lemma {:induction false} NonGlobalAppend(a: seq<NamespaceNode>, b: seq<NamespaceNode>)
    ensures NonGlobal(a + b) == NonGlobal(a) + NonGlobal(b)
    decreases |b|
  {
    if |b| == 0 {
      assert a + b == a;
    } else {
      var front := b[..|b| - 1];
      assert (a + b)[..|a + b| - 1] == a + front;
      assert (a + b)[|a + b| - 1] == b[|b| - 1];
      NonGlobalAppend(a, front);
    }
  }

  /** A chain of named namespaces is kept as it is. */
  lemma {:induction false} NonGlobalKeepsNamed(nodes: seq<NamespaceNode>)
    requires forall i :: 0 <= i < |nodes| ==> nodes[i].Namespace?
    ensures NonGlobal(nodes) == nodes
  {
    if |nodes| > 0 {
      var front := nodes[..|nodes| - 1];
      NonGlobalKeepsNamed(front);
      assert front + [nodes[|nodes| - 1]] == nodes;
    }
  }

  /** For an enumerated chain, which starts at the global namespace, the
      folders are the rest of the chain, in order and with repeats. */
  lemma NonGlobalAfterGlobalRoot(nodes: seq<NamespaceNode>)
    requires |nodes| > 0 && nodes[0].GlobalNamespace?
    requires forall i :: 1 <= i < |nodes| ==> nodes[i].Namespace?
    ensures NonGlobal(nodes) == nodes[1..]
  {
    var root: seq<NamespaceNode> := [nodes[0]];
    assert root[..0] == [];
    assert NonGlobal(root) == [];
    assert root + nodes[1..] == nodes;
    NonGlobalAppend(root, nodes[1..]);
    NonGlobalKeepsNamed(nodes[1..]);
  }

  // ---------------------------------------------------------------------------
  // A worked example
  // ---------------------------------------------------------------------------

  // The lemmas below fix a few mangler values in their `requires` (for
  // instance `clean("Pair`1") == "Pair"` and `flat("Pair`1") == "Pair_1"`).
  // Those values are chosen for the illustration; they are not claimed to be
  // what CleanUpName and CleanUpNameAllUnderscore return.

  /** The generic struct `Pair<T>` in namespace `A.B` of the core library. */
  const PAIR_NAMESPACES: seq<NamespaceNode> := [GlobalNamespace("CoreLib"), Namespace("A"), Namespace("B")]
  const PAIR: TypeSymbol := TypeSymbol("Pair`1", Struct, NoSpecialType, true, false, Some(PAIR_NAMESPACES),
                                       None, true, [TypeParameterSymbol("T")], [], None)
  const PAIR_UNIT: CodeUnit := CodeUnit(PAIR, [], [])

  lemma PairOpeners(clean: string -> string)
    requires clean("CoreLib") == "CoreLib"
    ensures NamespaceOpeners(clean, PAIR_NAMESPACES)
         == "namespace CoreLib { " + "namespace A { " + "namespace B { "
  {
    var outer := [GlobalNamespace("CoreLib")];
    var middle := outer + [Namespace("A")];
    assert PAIR_NAMESPACES[..2] == middle;
    assert middle[..1] == outer;
    assert outer[..0] == [];
    assert NamespaceOpener(clean, GlobalNamespace("CoreLib")) == "namespace CoreLib { ";
    assert NamespaceOpener(clean, Namespace("A")) == "namespace A { ";
    assert NamespaceOpener(clean, Namespace("B")) == "namespace B { ";
    assert NamespaceOpeners(clean, outer) == "" + "namespace CoreLib { ";
  }

  lemma PairHead(clean: string -> string)
    requires clean("Pair`1") == "Pair" && clean("T") == "T"
    ensures TypeHead(clean, PAIR) == "template <typename T> " + "struct" + " " + "Pair"
  {
    var names := TemplateParameterNames(clean, [TypeParameterSymbol("T")]);
    assert names == ["typename " + "T"];
    assert TemplateParameterItems(clean, PAIR) == [] + names;
  }

  /** Its forward declaration, piece by piece as it is written. */
  lemma PairForwardDeclaration(clean: string -> string)
    requires clean("CoreLib") == "CoreLib" && clean("Pair`1") == "Pair" && clean("T") == "T"
    ensures ForwardDeclaration(clean, PAIR_UNIT)
         == ("namespace CoreLib { " + "namespace A { " + "namespace B { ")
          + ("template <typename T> " + "struct" + " " + "Pair") + "; " + "}}}" + "\n"
  {
    PairOpeners(clean);
    PairHead(clean);
    assert Repeat("}", 3) == "}}}";
  }

  /** Its namespaces below the global one. */
  lemma PairFolders()
    ensures NonGlobal(PAIR_NAMESPACES) == [Namespace("A"), Namespace("B")]
  {
    var outer := [GlobalNamespace("CoreLib")];
    var middle := outer + [Namespace("A")];
    assert PAIR_NAMESPACES[..2] == middle;
    assert middle[..1] == outer;
    assert outer[..0] == [];
    assert NonGlobal(outer) == [];
    assert NonGlobal(middle) == [] + [Namespace("A")];
  }

  /** Its source file sits two folders below `src`. */
  lemma PairSourcePath(flat: string -> string)
    requires flat("A") == "A" && flat("B") == "B" && flat("Pair`1") == "Pair_1"
    ensures SourcePath(flat, PAIR_UNIT) == UnitPath(["src", "A", "B"], "Pair_1.cpp", 2)
  {
    PairFolders();
    assert FolderNames(flat, [Namespace("A"), Namespace("B")]) == ["A", "B"];
  }

  /** Two levels down, it includes the header two levels up. */
  lemma PairIncludeLine()
    ensures SourceText(AssemblyIdentity("CoreLib"), 2, PAIR_UNIT)
         == "#include \"" + ("..\\..\\" + "CoreLib" + ".h") + "\"\n"
  {
    assert Repeat("..\\", 2) == "..\\..\\";
    assert IncludePath(AssemblyIdentity("CoreLib"), 2) == "..\\..\\" + "CoreLib" + ".h";
    assert Concat(PAIR_UNIT.definitions) == "";
    var line := "#include \"" + ("..\\..\\" + "CoreLib" + ".h") + "\"\n";
    assert line + "" == line;
  }
}
