/** The CMake generator: turns a resolved package graph into the text of a
    `CMakeLists.txt`.

    The graph is given as plain values. Every package renders its targets and
    then its products; each target becomes a static library, each product a
    shared library, an interface library or an executable, depending on its
    kind. Identifiers are optionally prefixed by a scope name.

    Each renderer is an imperative method appending to a `TemplatePrinter`,
    and is proved against a function giving the lines it emits (`...Lines`,
    depths relative to the printer's level on entry). The lemmas further down
    state what those lines are. */
module CMakeGen {
  import opened Printer

  datatype Option<T> = None | Some(value: T)

  // ---------------------------------------------------------------------------
  // The resolved graph

  /** A dependency of a target: another target of the same package, or a product. */
  datatype Dependency = TargetRef(target: string) | ProductRef(product: string)

  /** A target: its name, its source paths (already relative to the output
      directory) and its dependencies, in declaration order. */
  datatype Target = Target(name: string, sources: seq<string>, dependencies: seq<Dependency>)

  datatype ProductKind = Dynamic | OtherLibrary | Executable | Other

  datatype Product = Product(name: string, kind: ProductKind, targets: seq<Target>)

  datatype Package = Package(identity: string, targets: seq<Target>, products: seq<Product>)

  datatype Graph = Graph(packages: seq<Package>)

  /** The generation context: the optional scope name (`getScopeName` is its selector). */
  datatype Context = Context(scopeName: Option<string>)

  // ---------------------------------------------------------------------------
  // Naming policy

  /** `nameWithScope`: `scope-name` when a scope is configured, `name` otherwise. */
  function NameWithScope(ctx: Context, name: string): string
  {
    match ctx.scopeName
    case Some(scope) => scope + "-" + name
    case None => name
  }

  /** Recovers the unscoped name from a scoped one, if it has the scope's prefix. */
  function StripScope(ctx: Context, scoped: string): Option<string>
  {
    match ctx.scopeName
    case None => Some(scoped)
    case Some(scope) =>
      if |scope| + 1 <= |scoped| && scoped[..|scope| + 1] == scope + "-"
      then Some(scoped[|scope| + 1..])
      else None
  }

  /** `Target.gen_name`: the package identity, two underscores, the target name. */
  function TargetGenName(pkg: string, name: string): string
  {
    pkg + "__" + name
  }

  /** `Product.gen_name` and `Target.ProductReference.gen_name`: the bare name. */
  function ProductGenName(name: string): string
  {
    name
  }

  /** The scoped name a target dependency or a product dependency is linked by. */
  function DependencyName(ctx: Context, pkg: string, d: Dependency): string
  {
    match d
    case TargetRef(t) => NameWithScope(ctx, TargetGenName(pkg, t))
    case ProductRef(p) => NameWithScope(ctx, ProductGenName(p))
  }

  // ---------------------------------------------------------------------------
  // String rewriting

  /** `replacingOccurrences(of: from, with: to)` for one-character strings. */
  function ReplaceChar(s: string, from: char, to: char): (r: string)
    ensures |r| == |s|
    ensures forall i :: 0 <= i < |s| ==> r[i] == (if s[i] == from then to else s[i])
  {
    if s == [] then [] else [if s[0] == from then to else s[0]] + ReplaceChar(s[1..], from, to)
  }

  /** The module name of a target: every `-` becomes `_`. */
  function ModuleName(name: string): (r: string)
    ensures |r| == |name|
    ensures '-' !in r
    ensures forall i :: 0 <= i < |name| ==> r[i] == (if name[i] == '-' then '_' else name[i])
  {
    ReplaceChar(name, '-', '_')
  }

  /** Every space becomes a backslash followed by a space. */
  function EscapeSpaces(p: string): (r: string)
    ensures |r| > 0 ==> r[0] != ' '
    ensures forall i :: 0 <= i < |r| && r[i] == ' ' ==> i > 0 && r[i - 1] == '\\'
  {
    if p == [] then []
    else (if p[0] == ' ' then "\\ " else [p[0]]) + EscapeSpaces(p[1..])
  }

  /** The escaping applied to a source path: spaces escaped, then every `>` replaced by `_`. */
  function EscapePath(p: string): (r: string)
    ensures '>' !in r
    ensures forall i :: 0 <= i < |r| && r[i] == ' ' ==> i > 0 && r[i - 1] == '\\'
  {
    ReplaceChar(EscapeSpaces(p), '>', '_')
  }

  /** Reads an escaped path back: a backslash followed by a space is a space. */
  function Unescape(r: string): string
  {
    if r == [] then []
    else if |r| >= 2 && r[0] == '\\' && r[1] == ' ' then " " + Unescape(r[2..])
    else [r[0]] + Unescape(r[1..])
  }

  // ---------------------------------------------------------------------------
  // Properties of the naming policy

  /** A scoped name determines the unscoped one: stripping the scope gives it back. */
  lemma StripScopeRoundTrip(ctx: Context, name: string)
    ensures StripScope(ctx, NameWithScope(ctx, name)) == Some(name)
  {
    match ctx.scopeName
    case None =>
    case Some(scope) =>
      var scoped := scope + "-" + name;
      assert scoped[..|scope| + 1] == scope + "-";
      assert scoped[|scope| + 1..] == name;
  }

  /** Under one context, distinct names get distinct scoped names. */
  lemma NameWithScopeInjective(ctx: Context, a: string, b: string)
    requires NameWithScope(ctx, a) == NameWithScope(ctx, b)
    ensures a == b
  {
    StripScopeRoundTrip(ctx, a);
    StripScopeRoundTrip(ctx, b);
  }

  /** Within one package, distinct target names get distinct generated names. */
  lemma TargetGenNameInjective(pkg: string, a: string, b: string)
    requires TargetGenName(pkg, a) == TargetGenName(pkg, b)
    ensures a == b
  {
    assert a == TargetGenName(pkg, a)[|pkg| + 2..];
    assert b == TargetGenName(pkg, b)[|pkg| + 2..];
  }

  /** A generated target name starts with the package identity and two underscores. */
  lemma TargetGenNameShape(pkg: string, name: string)
    ensures |TargetGenName(pkg, name)| == |pkg| + 2 + |name|
    ensures TargetGenName(pkg, name)[..|pkg|] == pkg
    ensures TargetGenName(pkg, name)[|pkg|..|pkg| + 2] == "__"
    ensures TargetGenName(pkg, name)[|pkg| + 2..] == name
  {
    var g := TargetGenName(pkg, name);
    assert g == pkg + "__" + name;
    assert g[..|pkg|] == pkg;
    assert g[|pkg|..|pkg| + 2] == "__";
    assert g[|pkg| + 2..] == name;
  }

  /** Across packages the generated names can collide: identity `a_` with target `b`
      and identity `a` with target `_b` are both named `a___b`. */
  lemma TargetGenNameCrossPackageCollision()
    ensures TargetGenName("a_", "b") == TargetGenName("a", "_b")
    ensures "a_" != "a"
  {
    assert TargetGenName("a_", "b") == "a___b";
    assert TargetGenName("a", "_b") == "a___b";
  }

  /** A target reference and a product reference are linked by the very name their
      target or product is declared under. */
  lemma DependencyLinksDeclaration(ctx: Context, pkg: string, t: Target, p: Product)
    ensures DependencyName(ctx, pkg, TargetRef(t.name)) == TargetScopedName(ctx, pkg, t)
    ensures DependencyName(ctx, pkg, ProductRef(p.name)) == ProductScopedName(ctx, p)
  {
  }

  /** Within one package, distinct target references are linked by distinct names. */
  lemma TargetDependencyNameInjective(ctx: Context, pkg: string, a: string, b: string)
    requires DependencyName(ctx, pkg, TargetRef(a)) == DependencyName(ctx, pkg, TargetRef(b))
    ensures a == b
  {
    NameWithScopeInjective(ctx, TargetGenName(pkg, a), TargetGenName(pkg, b));
    TargetGenNameInjective(pkg, a, b);
  }

  /** Distinct products get distinct linked names, even when linked from different packages. */
  lemma ProductDependencyNameInjective(ctx: Context, pkg1: string, pkg2: string, a: string, b: string)
    requires DependencyName(ctx, pkg1, ProductRef(a)) == DependencyName(ctx, pkg2, ProductRef(b))
    ensures a == b
  {
    NameWithScopeInjective(ctx, a, b);
  }

  /** A product reference is linked by the same name from every package. */
  lemma ProductDependencyNameIgnoresPackage(ctx: Context, pkg1: string, pkg2: string, a: string)
    ensures DependencyName(ctx, pkg1, ProductRef(a)) == DependencyName(ctx, pkg2, ProductRef(a))
  {
  }

  /** Under one scope, distinct product names give distinct declared names. */
  lemma ProductScopedNameInjective(ctx: Context, p: Product, q: Product)
    requires ProductScopedName(ctx, p) == ProductScopedName(ctx, q)
    ensures p.name == q.name
  {
    NameWithScopeInjective(ctx, p.name, q.name);
  }

  // ---------------------------------------------------------------------------
  // Properties of the path escaping

  lemma {:induction false} ReplaceCharAppend(a: string, b: string, from: char, to: char)
    ensures ReplaceChar(a + b, from, to) == ReplaceChar(a, from, to) + ReplaceChar(b, from, to)
  {
    var l, r := ReplaceChar(a + b, from, to), ReplaceChar(a, from, to) + ReplaceChar(b, from, to);
    assert |l| == |r|;
    forall i | 0 <= i < |l| ensures l[i] == r[i] {
      if i < |a| {
        assert (a + b)[i] == a[i];
      } else {
        assert (a + b)[i] == b[i - |a|];
      }
    }
  }

  /** Escaping spaces and replacing `>` by `_` commute: neither touches what the other writes. */
  lemma {:induction false} EscapeSpacesCommutes(p: string)
    ensures ReplaceChar(EscapeSpaces(p), '>', '_') == EscapeSpaces(ReplaceChar(p, '>', '_'))
  {
    if p != [] {
      var q := ReplaceChar(p, '>', '_');
      assert q[0] == (if p[0] == '>' then '_' else p[0]);
      assert q[1..] == ReplaceChar(p[1..], '>', '_');
      var head := if p[0] == ' ' then "\\ " else [p[0]];
      ReplaceCharAppend(head, EscapeSpaces(p[1..]), '>', '_');
      EscapeSpacesCommutes(p[1..]);
      if p[0] == ' ' {
        assert ReplaceChar(head, '>', '_') == "\\ ";
      } else {
        assert ReplaceChar(head, '>', '_') == [q[0]];
      }
    }
  }

  /** Reading an escaped path back gives the original path. */
  lemma {:induction false} UnescapeEscapeSpaces(p: string)
    ensures Unescape(EscapeSpaces(p)) == p
  {
    if p != [] {
      var rest := EscapeSpaces(p[1..]);
      UnescapeEscapeSpaces(p[1..]);
      if p[0] == ' ' {
        assert EscapeSpaces(p) == "\\ " + rest;
        assert ("\\ " + rest)[2..] == rest;
      } else {
        assert EscapeSpaces(p) == [p[0]] + rest;
        assert ([p[0]] + rest)[1..] == rest;
        if p[0] == '\\' {
          // a backslash of the path is followed by an escaped character, never by a bare space
          assert rest == [] || rest[0] != ' ';
        }
      }
      assert p == [p[0]] + p[1..];
    }
  }

  /** A source path's escaping loses only the distinction between `>` and `_`. */
  lemma EscapePathRoundTrip(p: string)
    ensures Unescape(EscapePath(p)) == ReplaceChar(p, '>', '_')
  {
    EscapeSpacesCommutes(p);
    UnescapeEscapeSpaces(ReplaceChar(p, '>', '_'));
  }

  // ---------------------------------------------------------------------------
  // The lines each renderer emits

  /** `generateModuleName`. */
  function ModuleNameLines(targetName: string, moduleName: string): seq<Line>
  {
    [ Line(0, "set_target_properties(" + targetName + " PROPERTIES"),
      Line(1, "Swift_MODULE_NAME " + ModuleName(moduleName)),
      Line(0, ")") ]
  }

  /** `generateLibraryAlias`. */
  function AliasLines(ctx: Context, targetName: string): seq<Line>
  {
    match ctx.scopeName
    case None => []
    case Some(scope) =>
      [Line(0, "add_library(" + scope + "::" + targetName + " ALIAS " + NameWithScope(ctx, targetName) + ")")]
  }

  function SourceLine(path: string): string
  {
    "${CMAKE_CURRENT_LIST_DIR}/" + EscapePath(path)
  }

  /** The body of the sources block: one line per source, in order. */
  function SourceLines(sources: seq<string>): seq<Line>
  {
    seq(|sources|, k requires 0 <= k < |sources| => Line(0, SourceLine(sources[k])))
  }

  /** The body of the link block: one line per dependency, in order. */
  function DependencyLines(ctx: Context, pkg: string, deps: seq<Dependency>): seq<Line>
  {
    seq(|deps|, k requires 0 <= k < |deps| => Line(0, DependencyName(ctx, pkg, deps[k])))
  }

  /** The declaration line, then the placeholder source of a target without sources. */
  function TargetHead(name: string, sources: seq<string>): seq<Line>
  {
    if sources == [] then [Line(0, "add_library(" + name + " STATIC"), Line(0, "empty.swift")]
    else [Line(0, "add_library(" + name + " STATIC")]
  }

  /** The end of a declaration block and the public include directive. */
  function PublicIncludeLines(name: string): seq<Line>
  {
    [Line(0, ")"), Line(0, "target_include_directories(" + name + " PUBLIC ${CMAKE_CURRENT_BINARY_DIR})")]
  }

  /** The link block of a target: nothing when it has no dependencies. */
  function LinkLines(ctx: Context, pkg: string, name: string, deps: seq<Dependency>): seq<Line>
  {
    if deps == [] then []
    else [Line(0, "target_link_libraries(" + name + " PRIVATE")]
         + Nested(DependencyLines(ctx, pkg, deps)) + [Line(0, ")")]
  }

  function TargetScopedName(ctx: Context, pkg: string, t: Target): string
  {
    NameWithScope(ctx, TargetGenName(pkg, t.name))
  }

  /** What follows the sources of a target: the include directive, the module name
      and the link block. */
  function TargetTail(ctx: Context, pkg: string, name: string, t: Target): seq<Line>
  {
    PublicIncludeLines(name) + ModuleNameLines(name, t.name) + LinkLines(ctx, pkg, name, t.dependencies)
  }

  /** `ResolvedTarget.generate`. */
  function TargetLines(ctx: Context, pkg: string, t: Target): seq<Line>
  {
    TargetHead(TargetScopedName(ctx, pkg, t), t.sources)
    + Nested(SourceLines(t.sources))
    + TargetTail(ctx, pkg, TargetScopedName(ctx, pkg, t), t)
  }

  /** How a product refers to one of its member targets. */
  function MemberName(ctx: Context, pkg: string, t: Target, useObjs: bool): string
  {
    if useObjs then "$<TARGET_OBJECTS:" + TargetScopedName(ctx, pkg, t) + ">" else TargetScopedName(ctx, pkg, t)
  }

  /** `generate_targets`: one line per member target, in order. */
  function MemberLines(ctx: Context, pkg: string, targets: seq<Target>, useObjs: bool): seq<Line>
  {
    seq(|targets|, k requires 0 <= k < |targets| => Line(0, MemberName(ctx, pkg, targets[k], useObjs)))
  }

  /** The scoped name of a product. */
  function ProductScopedName(ctx: Context, p: Product): string
  {
    NameWithScope(ctx, ProductGenName(p.name))
  }

  /** What follows the members of a dynamic library: the include directive, the module
      name `N_product` and the alias. */
  function DynamicTail(ctx: Context, name: string, productName: string): seq<Line>
  {
    PublicIncludeLines(name) + ModuleNameLines(name, name + "_product") + AliasLines(ctx, productName)
  }

  /** A dynamic library: a shared library of its members' objects, with a module name and an alias. */
  function DynamicLines(ctx: Context, pkg: string, p: Product): seq<Line>
  {
    [Line(0, "add_library(" + ProductScopedName(ctx, p) + " SHARED empty.swift")]
    + Nested(MemberLines(ctx, pkg, p.targets, true))
    + DynamicTail(ctx, ProductScopedName(ctx, p), ProductGenName(p.name))
  }

  /** The interface declaration and the opening of its link block. */
  function InterfaceHead(name: string): seq<Line>
  {
    [ Line(0, "add_library(" + name + " INTERFACE)"),
      Line(0, "target_link_libraries(" + name + " INTERFACE") ]
  }

  /** The end of the interface link block and the interface include directive. */
  function InterfaceIncludeLines(name: string): seq<Line>
  {
    [ Line(0, ")"),
      Line(0, "target_include_directories(" + name + " INTERFACE ${CMAKE_CURRENT_BINARY_DIR})") ]
  }

  /** Any other library: an interface library linked against its members, with an alias. */
  function InterfaceLines(ctx: Context, pkg: string, p: Product): seq<Line>
  {
    InterfaceHead(ProductScopedName(ctx, p))
    + Nested(MemberLines(ctx, pkg, p.targets, false))
    + (InterfaceIncludeLines(ProductScopedName(ctx, p)) + AliasLines(ctx, ProductGenName(p.name)))
  }

  /** An executable of its members' objects, without an alias. */
  function ExecutableLines(ctx: Context, pkg: string, p: Product): seq<Line>
  {
    [Line(0, "add_executable(" + ProductScopedName(ctx, p) + " empty.swift")]
    + Nested(MemberLines(ctx, pkg, p.targets, true))
    + PublicIncludeLines(ProductScopedName(ctx, p))
  }

  /** `ResolvedProduct.generate`: dispatch on the product kind; other kinds emit nothing. */
  function ProductLines(ctx: Context, pkg: string, p: Product): seq<Line>
  {
    match p.kind
    case Dynamic => DynamicLines(ctx, pkg, p)
    case OtherLibrary => InterfaceLines(ctx, pkg, p)
    case Executable => ExecutableLines(ctx, pkg, p)
    case Other => []
  }

  /** The targets of a package, rendered one after the other. */
  function TargetsLines(ctx: Context, pkg: string, ts: seq<Target>): seq<Line>
  {
    if ts == [] then [] else TargetLines(ctx, pkg, ts[0]) + TargetsLines(ctx, pkg, ts[1..])
  }

  /** The products of a package, rendered one after the other. */
  function ProductsLines(ctx: Context, pkg: string, ps: seq<Product>): seq<Line>
  {
    if ps == [] then [] else ProductLines(ctx, pkg, ps[0]) + ProductsLines(ctx, pkg, ps[1..])
  }

  /** `ResolvedPackage.generate`: all targets, then all products. */
  function PackageLines(ctx: Context, p: Package): seq<Line>
  {
    TargetsLines(ctx, p.identity, p.targets) + ProductsLines(ctx, p.identity, p.products)
  }

  /** The packages of a graph, rendered one after the other. */
  function PackagesLines(ctx: Context, pkgs: seq<Package>): seq<Line>
  {
    if pkgs == [] then [] else PackageLines(ctx, pkgs[0]) + PackagesLines(ctx, pkgs[1..])
  }

  // ---------------------------------------------------------------------------
  // The layout of what the renderers emit

  /** The module-name block is three lines, the module name without any `-`. */
  lemma ModuleNameBlock(targetName: string, moduleName: string)
    ensures |ModuleNameLines(targetName, moduleName)| == 3
    ensures ModuleNameLines(targetName, moduleName)[0] == Line(0, "set_target_properties(" + targetName + " PROPERTIES")
    ensures ModuleNameLines(targetName, moduleName)[1].depth == 1
    ensures ModuleNameLines(targetName, moduleName)[1].text == "Swift_MODULE_NAME " + ModuleName(moduleName)
    ensures '-' !in ModuleNameLines(targetName, moduleName)[1].text[|"Swift_MODULE_NAME "|..]
    ensures ModuleNameLines(targetName, moduleName)[2] == Line(0, ")")
  {
    assert ModuleNameLines(targetName, moduleName)[1].text[|"Swift_MODULE_NAME "|..] == ModuleName(moduleName);
  }

  /** The alias line is there exactly when a scope `S` is configured, and reads
      `add_library(S::T ALIAS S-T)`. */
  lemma AliasLine(ctx: Context, targetName: string)
    ensures AliasLines(ctx, targetName) == [] <==> ctx.scopeName.None?
    ensures ctx.scopeName.Some? ==>
      AliasLines(ctx, targetName)
      == [Line(0, "add_library(" + ctx.scopeName.value + "::" + targetName + " ALIAS "
                  + (ctx.scopeName.value + "-" + targetName) + ")")]
  {
  }

  /** Every source line names the escaped path, which holds no `>`. */
  lemma SourceLineShape(path: string)
    ensures SourceLine(path)[..|"${CMAKE_CURRENT_LIST_DIR}/"|] == "${CMAKE_CURRENT_LIST_DIR}/"
    ensures SourceLine(path)[|"${CMAKE_CURRENT_LIST_DIR}/"|..] == EscapePath(path)
    ensures '>' !in SourceLine(path)[|"${CMAKE_CURRENT_LIST_DIR}/"|..]
    ensures Unescape(SourceLine(path)[|"${CMAKE_CURRENT_LIST_DIR}/"|..]) == ReplaceChar(path, '>', '_')
  {
    EscapePathRoundTrip(path);
  }

  /** `a + b + c` holds `a` at its front. */
  lemma ConcatFirst<T>(a: seq<T>, b: seq<T>, c: seq<T>, i: nat)
    requires i < |a|
    ensures (a + b + c)[i] == a[i]
  {
  }

  /** `a + b + c` holds `b` after `a`. */
  lemma ConcatMiddle<T>(a: seq<T>, b: seq<T>, c: seq<T>, i: int)
    requires |a| <= i < |a| + |b|
    ensures (a + b + c)[i] == b[i - |a|]
  {
  }

  /** The first `|a|` elements of `a + b + c` are `a`. */
  lemma ConcatPrefix<T>(a: seq<T>, b: seq<T>, c: seq<T>)
    ensures (a + b + c)[..|a|] == a
  {
  }

  /** The elements of `a + b + c` between `a` and `c` are `b`. */
  lemma ConcatInfix<T>(a: seq<T>, b: seq<T>, c: seq<T>)
    ensures (a + b + c)[|a|..|a| + |b|] == b
  {
  }

  /** What follows `a` and `b` in `a + b + c` is `c`. */
  lemma ConcatSuffix<T>(a: seq<T>, b: seq<T>, c: seq<T>)
    ensures (a + b + c)[|a| + |b|..] == c
  {
  }

  /** Concatenation regroups freely. */
  lemma ConcatAssoc<T>(a: seq<T>, b: seq<T>, c: seq<T>)
    ensures a + (b + c) == a + b + c
  {
  }

  /** A target opens with its STATIC declaration. */
  lemma TargetDeclaration(ctx: Context, pkg: string, t: Target)
    ensures TargetLines(ctx, pkg, t)[0] == Line(0, "add_library(" + TargetScopedName(ctx, pkg, t) + " STATIC")
  {
    var n := TargetScopedName(ctx, pkg, t);
    ConcatFirst(TargetHead(n, t.sources), Nested(SourceLines(t.sources)), TargetTail(ctx, pkg, n, t), 0);
  }

  /** The index of the line that closes a target's sources block. */
  function SourcesEnd(t: Target): nat
  {
    (if t.sources == [] then 2 else 1) + |t.sources|
  }

  /** A target without sources gets one `empty.swift` line, at the declaration's level,
      and no path line: its block is closed right after. */
  lemma TargetWithoutSources(ctx: Context, pkg: string, t: Target)
    requires t.sources == []
    ensures TargetLines(ctx, pkg, t)[1] == Line(0, "empty.swift")
    ensures TargetLines(ctx, pkg, t)[2] == Line(0, ")")
  {
    var n := TargetScopedName(ctx, pkg, t);
    ConcatFirst(TargetHead(n, t.sources), Nested(SourceLines(t.sources)), TargetTail(ctx, pkg, n, t), 1);
    TargetSourcesClosed(ctx, pkg, t);
  }

  /** A target with sources gets one path line per source, one level deeper, in
      source order, right after its declaration. */
  lemma TargetWithSources(ctx: Context, pkg: string, t: Target)
    requires t.sources != []
    ensures forall k :: 0 <= k < |t.sources| ==>
      TargetLines(ctx, pkg, t)[1 + k] == Line(1, "${CMAKE_CURRENT_LIST_DIR}/" + EscapePath(t.sources[k]))
  {
    var n := TargetScopedName(ctx, pkg, t);
    var head := TargetHead(n, t.sources);
    var body := Nested(SourceLines(t.sources));
    var tail := TargetTail(ctx, pkg, n, t);
    assert |head| == 1;
    forall k | 0 <= k < |t.sources|
      ensures TargetLines(ctx, pkg, t)[1 + k] == Line(1, SourceLine(t.sources[k]))
    {
      ConcatMiddle(head, body, tail, 1 + k);
      assert SourceLines(t.sources)[k] == Line(0, SourceLine(t.sources[k]));
    }
  }

  /** Everything after a target's sources block is its tail. */
  lemma TargetTailAt(ctx: Context, pkg: string, t: Target)
    ensures |TargetLines(ctx, pkg, t)| >= SourcesEnd(t)
    ensures TargetLines(ctx, pkg, t)[SourcesEnd(t)..] == TargetTail(ctx, pkg, TargetScopedName(ctx, pkg, t), t)
  {
    var n := TargetScopedName(ctx, pkg, t);
    var head := TargetHead(n, t.sources);
    var body := Nested(SourceLines(t.sources));
    ConcatSuffix(head, body, TargetTail(ctx, pkg, n, t));
    assert |head| + |body| == SourcesEnd(t);
  }

  /** The sources block is closed right after the sources, and the public include
      directive follows. */
  lemma TargetSourcesClosed(ctx: Context, pkg: string, t: Target)
    ensures |TargetLines(ctx, pkg, t)| >= SourcesEnd(t) + 5
    ensures TargetLines(ctx, pkg, t)[SourcesEnd(t)] == Line(0, ")")
    ensures TargetLines(ctx, pkg, t)[SourcesEnd(t) + 1]
         == Line(0, "target_include_directories(" + TargetScopedName(ctx, pkg, t) + " PUBLIC ${CMAKE_CURRENT_BINARY_DIR})")
  {
    var n := TargetScopedName(ctx, pkg, t);
    var all := TargetLines(ctx, pkg, t);
    var e := SourcesEnd(t);
    var incl := PublicIncludeLines(n);
    var mod := ModuleNameLines(n, t.name);
    var links := LinkLines(ctx, pkg, n, t.dependencies);
    TargetTailAt(ctx, pkg, t);
    assert all[e..] == incl + mod + links;
    ConcatFirst(incl, mod, links, 0);
    ConcatFirst(incl, mod, links, 1);
    assert all[e] == all[e..][0];
    assert all[e + 1] == all[e..][1];
  }

  /** After the include directive comes the module-name block for the target's own name. */
  lemma TargetModuleName(ctx: Context, pkg: string, t: Target)
    ensures |TargetLines(ctx, pkg, t)| >= SourcesEnd(t) + 5
    ensures TargetLines(ctx, pkg, t)[SourcesEnd(t) + 2..SourcesEnd(t) + 5]
         == ModuleNameLines(TargetScopedName(ctx, pkg, t), t.name)
  {
    var n := TargetScopedName(ctx, pkg, t);
    var all := TargetLines(ctx, pkg, t);
    var e := SourcesEnd(t);
    var incl := PublicIncludeLines(n);
    var mod := ModuleNameLines(n, t.name);
    var links := LinkLines(ctx, pkg, n, t.dependencies);
    TargetTailAt(ctx, pkg, t);
    assert all[e..] == incl + mod + links;
    ConcatInfix(incl, mod, links);
    assert all[e + 2..e + 5] == all[e..][2..5];
  }

  /** The link block closes a target. */
  lemma TargetEndsWithLinks(ctx: Context, pkg: string, t: Target)
    ensures |TargetLines(ctx, pkg, t)| == SourcesEnd(t) + 5 + |LinkLines(ctx, pkg, TargetScopedName(ctx, pkg, t), t.dependencies)|
    ensures TargetLines(ctx, pkg, t)[SourcesEnd(t) + 5..]
         == LinkLines(ctx, pkg, TargetScopedName(ctx, pkg, t), t.dependencies)
  {
    var n := TargetScopedName(ctx, pkg, t);
    var all := TargetLines(ctx, pkg, t);
    var e := SourcesEnd(t);
    var incl := PublicIncludeLines(n);
    var mod := ModuleNameLines(n, t.name);
    var links := LinkLines(ctx, pkg, n, t.dependencies);
    TargetTailAt(ctx, pkg, t);
    assert all[e..] == incl + mod + links;
    ConcatSuffix(incl, mod, links);
    assert all[e + 5..] == all[e..][5..];
  }

  /** A target has lines past its module-name block exactly when it has dependencies. */
  lemma TargetLinked(ctx: Context, pkg: string, t: Target)
    ensures |TargetLines(ctx, pkg, t)| > SourcesEnd(t) + 5 <==> t.dependencies != []
  {
    TargetEndsWithLinks(ctx, pkg, t);
    LinkBlockPresent(ctx, pkg, TargetScopedName(ctx, pkg, t), t.dependencies);
  }

  /** The link block is there exactly when there are dependencies. */
  lemma LinkBlockPresent(ctx: Context, pkg: string, name: string, deps: seq<Dependency>)
    ensures LinkLines(ctx, pkg, name, deps) == [] <==> deps == []
  {
  }

  /** A link block holds the linked name of each dependency, in order, one level deeper. */
  lemma LinkBlockShape(ctx: Context, pkg: string, name: string, deps: seq<Dependency>)
    requires deps != []
    ensures |LinkLines(ctx, pkg, name, deps)| == |deps| + 2
    ensures LinkLines(ctx, pkg, name, deps)[0] == Line(0, "target_link_libraries(" + name + " PRIVATE")
    ensures forall j :: 0 <= j < |deps| ==>
      LinkLines(ctx, pkg, name, deps)[1 + j] == Line(1, DependencyName(ctx, pkg, deps[j]))
    ensures LinkLines(ctx, pkg, name, deps)[1 + |deps|] == Line(0, ")")
  {
    var open := [Line(0, "target_link_libraries(" + name + " PRIVATE")];
    var names := DependencyLines(ctx, pkg, deps);
    var body := Nested(names);
    var all := LinkLines(ctx, pkg, name, deps);
    assert all == open + body + [Line(0, ")")];
    assert |body| == |deps|;
    assert all[1 + |deps|] == Line(0, ")");
    forall j | 0 <= j < |deps|
      ensures all[1 + j] == Line(1, DependencyName(ctx, pkg, deps[j]))
    {
      assert all[1 + j] == body[j];
      assert names[j] == Line(0, DependencyName(ctx, pkg, deps[j]));
    }
  }

  /** The member block of a product, one level deeper: plain names, or object
      references when `useObjs` is set. */
  lemma NestedMembers(ctx: Context, pkg: string, targets: seq<Target>, useObjs: bool)
    ensures |Nested(MemberLines(ctx, pkg, targets, useObjs))| == |targets|
    ensures useObjs ==> forall k :: 0 <= k < |targets| ==>
      Nested(MemberLines(ctx, pkg, targets, useObjs))[k]
      == Line(1, "$<TARGET_OBJECTS:" + TargetScopedName(ctx, pkg, targets[k]) + ">")
    ensures !useObjs ==> forall k :: 0 <= k < |targets| ==>
      Nested(MemberLines(ctx, pkg, targets, useObjs))[k] == Line(1, TargetScopedName(ctx, pkg, targets[k]))
  {
    var names := MemberLines(ctx, pkg, targets, useObjs);
    forall k | 0 <= k < |targets|
      ensures Nested(names)[k] == Line(1, MemberName(ctx, pkg, targets[k], useObjs))
    {
      assert names[k] == Line(0, MemberName(ctx, pkg, targets[k], useObjs));
    }
  }

  /** A dynamic library is a SHARED library over its members' objects, one member per line
      one level deeper. */
  lemma DynamicProduct(ctx: Context, pkg: string, p: Product)
    requires p.kind == Dynamic
    ensures ProductLines(ctx, pkg, p)[0] == Line(0, "add_library(" + NameWithScope(ctx, p.name) + " SHARED empty.swift")
    ensures forall k :: 0 <= k < |p.targets| ==>
      ProductLines(ctx, pkg, p)[1 + k] == Line(1, "$<TARGET_OBJECTS:" + TargetScopedName(ctx, pkg, p.targets[k]) + ">")
  {
    var n := ProductScopedName(ctx, p);
    var head := [Line(0, "add_library(" + n + " SHARED empty.swift")];
    var members := Nested(MemberLines(ctx, pkg, p.targets, true));
    var tail := DynamicTail(ctx, n, ProductGenName(p.name));
    assert ProductLines(ctx, pkg, p) == head + members + tail;
    ConcatFirst(head, members, tail, 0);
    NestedMembers(ctx, pkg, p.targets, true);
    forall k | 0 <= k < |p.targets|
      ensures ProductLines(ctx, pkg, p)[1 + k] == members[k]
    {
      ConcatMiddle(head, members, tail, 1 + k);
    }
  }

  /** After its members, a dynamic library has the public include directive, the module
      name `N_product` and the alias. */
  lemma DynamicProductEnd(ctx: Context, pkg: string, p: Product)
    requires p.kind == Dynamic
    ensures |ProductLines(ctx, pkg, p)| >= 1 + |p.targets|
    ensures ProductLines(ctx, pkg, p)[1 + |p.targets|..]
         == PublicIncludeLines(NameWithScope(ctx, p.name))
            + ModuleNameLines(NameWithScope(ctx, p.name), NameWithScope(ctx, p.name) + "_product")
            + AliasLines(ctx, p.name)
  {
    var n := ProductScopedName(ctx, p);
    var head := [Line(0, "add_library(" + n + " SHARED empty.swift")];
    var members := Nested(MemberLines(ctx, pkg, p.targets, true));
    var tail := DynamicTail(ctx, n, ProductGenName(p.name));
    assert ProductLines(ctx, pkg, p) == head + members + tail;
    ConcatSuffix(head, members, tail);
  }

  /** Any other library is an INTERFACE library linked against its members' plain names,
      one per line one level deeper. */
  lemma InterfaceProduct(ctx: Context, pkg: string, p: Product)
    requires p.kind == OtherLibrary
    ensures ProductLines(ctx, pkg, p)[..2]
         == [ Line(0, "add_library(" + NameWithScope(ctx, p.name) + " INTERFACE)"),
              Line(0, "target_link_libraries(" + NameWithScope(ctx, p.name) + " INTERFACE") ]
    ensures forall k :: 0 <= k < |p.targets| ==>
      ProductLines(ctx, pkg, p)[2 + k] == Line(1, TargetScopedName(ctx, pkg, p.targets[k]))
  {
    var n := ProductScopedName(ctx, p);
    var head := InterfaceHead(n);
    var members := Nested(MemberLines(ctx, pkg, p.targets, false));
    var tail := InterfaceIncludeLines(n) + AliasLines(ctx, ProductGenName(p.name));
    assert ProductLines(ctx, pkg, p) == head + members + tail;
    ConcatPrefix(head, members, tail);
    NestedMembers(ctx, pkg, p.targets, false);
    forall k | 0 <= k < |p.targets|
      ensures ProductLines(ctx, pkg, p)[2 + k] == members[k]
    {
      ConcatMiddle(head, members, tail, 2 + k);
    }
  }

  /** After its members, an interface library ends with the interface include directive
      and the alias. */
  lemma InterfaceProductEnd(ctx: Context, pkg: string, p: Product)
    requires p.kind == OtherLibrary
    ensures |ProductLines(ctx, pkg, p)| >= 2 + |p.targets|
    ensures ProductLines(ctx, pkg, p)[2 + |p.targets|..]
         == [ Line(0, ")"),
              Line(0, "target_include_directories(" + NameWithScope(ctx, p.name) + " INTERFACE ${CMAKE_CURRENT_BINARY_DIR})") ]
            + AliasLines(ctx, p.name)
  {
    var n := ProductScopedName(ctx, p);
    var head := InterfaceHead(n);
    var members := Nested(MemberLines(ctx, pkg, p.targets, false));
    var tail := InterfaceIncludeLines(n) + AliasLines(ctx, ProductGenName(p.name));
    assert ProductLines(ctx, pkg, p) == head + members + tail;
    ConcatSuffix(head, members, tail);
  }

  /** An executable is built from its members' objects, one per line one level deeper. */
  lemma ExecutableProduct(ctx: Context, pkg: string, p: Product)
    requires p.kind == Executable
    ensures ProductLines(ctx, pkg, p)[0] == Line(0, "add_executable(" + NameWithScope(ctx, p.name) + " empty.swift")
    ensures forall k :: 0 <= k < |p.targets| ==>
      ProductLines(ctx, pkg, p)[1 + k] == Line(1, "$<TARGET_OBJECTS:" + TargetScopedName(ctx, pkg, p.targets[k]) + ">")
  {
    var n := ProductScopedName(ctx, p);
    var head := [Line(0, "add_executable(" + n + " empty.swift")];
    var members := Nested(MemberLines(ctx, pkg, p.targets, true));
    var tail := PublicIncludeLines(n);
    assert ProductLines(ctx, pkg, p) == head + members + tail;
    ConcatFirst(head, members, tail, 0);
    NestedMembers(ctx, pkg, p.targets, true);
    forall k | 0 <= k < |p.targets|
      ensures ProductLines(ctx, pkg, p)[1 + k] == members[k]
    {
      ConcatMiddle(head, members, tail, 1 + k);
    }
  }

  /** An executable ends with the public include directive right after its members: it
      has no alias line, whatever the scope. */
  lemma ExecutableProductEnd(ctx: Context, pkg: string, p: Product)
    requires p.kind == Executable
    ensures |ProductLines(ctx, pkg, p)| == |p.targets| + 3
    ensures ProductLines(ctx, pkg, p)[1 + |p.targets|..] == PublicIncludeLines(NameWithScope(ctx, p.name))
  {
    var n := ProductScopedName(ctx, p);
    var head := [Line(0, "add_executable(" + n + " empty.swift")];
    var members := Nested(MemberLines(ctx, pkg, p.targets, true));
    var tail := PublicIncludeLines(n);
    assert ProductLines(ctx, pkg, p) == head + members + tail;
    ConcatSuffix(head, members, tail);
  }

  // ---------------------------------------------------------------------------
  // Ordering

  /** The targets of `a + b` render as those of `a`, then those of `b`. */
  lemma {:induction false} TargetsLinesAppend(ctx: Context, pkg: string, a: seq<Target>, b: seq<Target>)
    ensures TargetsLines(ctx, pkg, a + b) == TargetsLines(ctx, pkg, a) + TargetsLines(ctx, pkg, b)
  {
    if a == [] {
      assert a + b == b;
    } else {
      assert (a + b)[0] == a[0];
      assert (a + b)[1..] == a[1..] + b;
      TargetsLinesAppend(ctx, pkg, a[1..], b);
    }
  }

  /** The products of `a + b` render as those of `a`, then those of `b`. */
  lemma {:induction false} ProductsLinesAppend(ctx: Context, pkg: string, a: seq<Product>, b: seq<Product>)
    ensures ProductsLines(ctx, pkg, a + b) == ProductsLines(ctx, pkg, a) + ProductsLines(ctx, pkg, b)
  {
    if a == [] {
      assert a + b == b;
    } else {
      assert (a + b)[0] == a[0];
      assert (a + b)[1..] == a[1..] + b;
      ProductsLinesAppend(ctx, pkg, a[1..], b);
    }
  }

  /** The packages of `a + b` render as those of `a`, then those of `b`. */
  lemma {:induction false} PackagesLinesAppend(ctx: Context, a: seq<Package>, b: seq<Package>)
    ensures PackagesLines(ctx, a + b) == PackagesLines(ctx, a) + PackagesLines(ctx, b)
  {
    if a == [] {
      assert a + b == b;
    } else {
      assert (a + b)[0] == a[0];
      assert (a + b)[1..] == a[1..] + b;
      PackagesLinesAppend(ctx, a[1..], b);
      ConcatAssoc(PackageLines(ctx, a[0]), PackagesLines(ctx, a[1..]), PackagesLines(ctx, b));
    }
  }

  /** The generated text of `a + b` is that of `a` followed by that of `b`. */
  lemma GraphOrder(ctx: Context, a: seq<Package>, b: seq<Package>)
    ensures Render(PackagesLines(ctx, a + b), 0) == Render(PackagesLines(ctx, a), 0) + Render(PackagesLines(ctx, b), 0)
  {
    PackagesLinesAppend(ctx, a, b);
    RenderAppend(PackagesLines(ctx, a), PackagesLines(ctx, b), 0);
  }

  lemma SourceLinesSnoc(sources: seq<string>, i: nat)
    requires i < |sources|
    ensures SourceLines(sources[..i + 1]) == SourceLines(sources[..i]) + [Line(0, SourceLine(sources[i]))]
  {
  }

  lemma DependencyLinesSnoc(ctx: Context, pkg: string, deps: seq<Dependency>, j: nat)
    requires j < |deps|
    ensures DependencyLines(ctx, pkg, deps[..j + 1])
         == DependencyLines(ctx, pkg, deps[..j]) + [Line(0, DependencyName(ctx, pkg, deps[j]))]
  {
  }

  lemma MemberLinesSnoc(ctx: Context, pkg: string, targets: seq<Target>, useObjs: bool, i: nat)
    requires i < |targets|
    ensures MemberLines(ctx, pkg, targets[..i + 1], useObjs)
         == MemberLines(ctx, pkg, targets[..i], useObjs) + [Line(0, MemberName(ctx, pkg, targets[i], useObjs))]
  {
  }

  lemma TargetsLinesSnoc(ctx: Context, pkg: string, ts: seq<Target>, i: nat)
    requires i < |ts|
    ensures TargetsLines(ctx, pkg, ts[..i + 1]) == TargetsLines(ctx, pkg, ts[..i]) + TargetLines(ctx, pkg, ts[i])
  {
    assert ts[..i + 1] == ts[..i] + [ts[i]];
    TargetsLinesAppend(ctx, pkg, ts[..i], [ts[i]]);
    assert TargetsLines(ctx, pkg, [ts[i]]) == TargetLines(ctx, pkg, ts[i]) + TargetsLines(ctx, pkg, []);
  }

  lemma ProductsLinesSnoc(ctx: Context, pkg: string, ps: seq<Product>, i: nat)
    requires i < |ps|
    ensures ProductsLines(ctx, pkg, ps[..i + 1]) == ProductsLines(ctx, pkg, ps[..i]) + ProductLines(ctx, pkg, ps[i])
  {
    assert ps[..i + 1] == ps[..i] + [ps[i]];
    ProductsLinesAppend(ctx, pkg, ps[..i], [ps[i]]);
    assert ProductsLines(ctx, pkg, [ps[i]]) == ProductLines(ctx, pkg, ps[i]) + ProductsLines(ctx, pkg, []);
  }

  lemma PackagesLinesSnoc(ctx: Context, pkgs: seq<Package>, i: nat)
    requires i < |pkgs|
    ensures PackagesLines(ctx, pkgs[..i + 1]) == PackagesLines(ctx, pkgs[..i]) + PackageLines(ctx, pkgs[i])
  {
    assert pkgs[..i + 1] == pkgs[..i] + [pkgs[i]];
    PackagesLinesAppend(ctx, pkgs[..i], [pkgs[i]]);
    assert PackagesLines(ctx, [pkgs[i]]) == PackageLines(ctx, pkgs[i]) + PackagesLines(ctx, []);
  }

  // ---------------------------------------------------------------------------
  // The renderers
  //
  // Each renderer appends its lines at the printer's level and leaves the level
  // as it found it. The block form `out <| { ... }` is written out as what that
  // operator does: `out.Inc()`, the generator's body, `out.Dec()`.

  /** `generateModuleName`. */
  method GenerateModuleName(targetName: string, moduleName: string, out: TemplatePrinter)
    modifies out
    ensures out.indent == old(out.indent)
    ensures out.content == old(out.content) + Render(ModuleNameLines(targetName, moduleName), old(out.indent))
  {
    ghost var base, c0 := out.indent, out.content;
    var fixedModuleName := ModuleName(moduleName);
    out.PutLine("set_target_properties(" + targetName + " PROPERTIES");
    ghost var c1 := out.content;
    out.Inc();
    out.PutLine("Swift_MODULE_NAME " + fixedModuleName);
    out.Dec();
    ghost var c2 := out.content;
    out.PutLine(")");
    PutThree(c0, c1, c2, out.content,
             Line(0, "set_target_properties(" + targetName + " PROPERTIES"),
             Line(1, "Swift_MODULE_NAME " + ModuleName(moduleName)),
             Line(0, ")"), base);
  }

  /** `generateLibraryAlias`: nothing unless a scope is configured. */
  method GenerateLibraryAlias(ctx: Context, targetName: string, out: TemplatePrinter)
    modifies out
    ensures out.indent == old(out.indent)
    ensures out.content == old(out.content) + Render(AliasLines(ctx, targetName), old(out.indent))
  {
    if ctx.scopeName.None? {
      return;
    }
    var scopeName := ctx.scopeName.value;
    var nameWithScope := NameWithScope(ctx, targetName);
    out.PutLine("add_library(" + scopeName + "::" + targetName + " ALIAS " + nameWithScope + ")");
    PutOne(old(out.content), out.content, AliasLines(ctx, targetName)[0], old(out.indent));
  }

  /** `ResolvedTarget.generate`. */
  method GenerateTarget(ctx: Context, pkg: string, t: Target, out: TemplatePrinter)
    modifies out
    ensures out.indent == old(out.indent)
    ensures out.content == old(out.content) + Render(TargetLines(ctx, pkg, t), old(out.indent))
  {
    ghost var base, c0 := out.indent, out.content;
    var nameWithScope := NameWithScope(ctx, TargetGenName(pkg, t.name));
    GenerateSources(nameWithScope, t.sources, out);
    ghost var c2 := out.content;

    out.PutLine(")");
    ghost var c := out.content;
    out.PutLine("target_include_directories(" + nameWithScope + " PUBLIC ${CMAKE_CURRENT_BINARY_DIR})");
    PutTwo(c2, c, out.content, Line(0, ")"),
           Line(0, "target_include_directories(" + nameWithScope + " PUBLIC ${CMAKE_CURRENT_BINARY_DIR})"), base);
    ghost var c3 := out.content;

    GenerateModuleName(nameWithScope, t.name, out);
    ghost var c4 := out.content;

    GenerateLinks(ctx, pkg, nameWithScope, t.dependencies, out);

    ghost var src := TargetHead(nameWithScope, t.sources) + Nested(SourceLines(t.sources));
    ghost var incl := PublicIncludeLines(nameWithScope);
    ghost var mod := ModuleNameLines(nameWithScope, t.name);
    RenderThen(c2, c3, c4, incl, mod, base);
    RenderThen(c2, c4, out.content, incl + mod, LinkLines(ctx, pkg, nameWithScope, t.dependencies), base);
    RenderThen(c0, c2, out.content, src, TargetTail(ctx, pkg, nameWithScope, t), base);
  }

  /** The declaration and sources block of `ResolvedTarget.generate`. */
  method GenerateSources(nameWithScope: string, sources: seq<string>, out: TemplatePrinter)
    modifies out
    ensures out.indent == old(out.indent)
    ensures out.content == old(out.content)
                         + Render(TargetHead(nameWithScope, sources) + Nested(SourceLines(sources)), old(out.indent))
  {
    ghost var base, c0 := out.indent, out.content;
    GenerateDeclaration(nameWithScope, sources, out);
    ghost var c1 := out.content;
    out.Inc();
    GenerateSourcePaths(sources, out);
    out.Dec();
    RenderNested(SourceLines(sources), base);
    RenderThen(c0, c1, out.content, TargetHead(nameWithScope, sources), Nested(SourceLines(sources)), base);
  }

  /** The STATIC declaration, and the placeholder source of a target without sources. */
  method GenerateDeclaration(nameWithScope: string, sources: seq<string>, out: TemplatePrinter)
    modifies out
    ensures out.indent == old(out.indent)
    ensures out.content == old(out.content) + Render(TargetHead(nameWithScope, sources), old(out.indent))
  {
    ghost var base, c0 := out.indent, out.content;
    out.PutLine("add_library(" + nameWithScope + " STATIC");
    if |sources| == 0 {
      ghost var c := out.content;
      // the placeholder source lets CMake tell the target's language
      out.PutLine("empty.swift");
      PutTwo(c0, c, out.content, Line(0, "add_library(" + nameWithScope + " STATIC"), Line(0, "empty.swift"), base);
    } else {
      PutOne(c0, out.content, Line(0, "add_library(" + nameWithScope + " STATIC"), base);
    }
  }

  /** The body of the sources block: every escaped source path, in order. */
  method GenerateSourcePaths(sources: seq<string>, out: TemplatePrinter)
    modifies out
    ensures out.indent == old(out.indent)
    ensures out.content == old(out.content) + Render(SourceLines(sources), old(out.indent))
  {
    ghost var base, c0 := out.indent, out.content;
    var i := 0;
    while i < |sources|
      invariant 0 <= i <= |sources|
      invariant out.indent == base
      invariant out.content == c0 + Render(SourceLines(sources[..i]), base)
    {
      ghost var before := out.content;
      var srcPath := EscapePath(sources[i]);
      out.PutLine("${CMAKE_CURRENT_LIST_DIR}/" + srcPath);
      RenderStep(c0, before, out.content, SourceLines(sources[..i]), Line(0, SourceLine(sources[i])), base);
      SourceLinesSnoc(sources, i);
      i := i + 1;
    }
    assert sources[..i] == sources;
  }

  /** The link block of `ResolvedTarget.generate`, emitted only when there are dependencies. */
  method GenerateLinks(ctx: Context, pkg: string, nameWithScope: string, deps: seq<Dependency>, out: TemplatePrinter)
    modifies out
    ensures out.indent == old(out.indent)
    ensures out.content == old(out.content) + Render(LinkLines(ctx, pkg, nameWithScope, deps), old(out.indent))
  {
    if |deps| == 0 {
      return;
    }
    ghost var base, c0 := out.indent, out.content;
    ghost var open := Line(0, "target_link_libraries(" + nameWithScope + " PRIVATE");
    out.PutLine("target_link_libraries(" + nameWithScope + " PRIVATE");
    PutOne(c0, out.content, open, base);
    ghost var c1 := out.content;
    out.Inc();
    GenerateDependencies(ctx, pkg, deps, out);
    out.Dec();
    RenderNested(DependencyLines(ctx, pkg, deps), base);
    ghost var c2 := out.content;
    out.PutLine(")");
    PutOne(c2, out.content, Line(0, ")"), base);
    ghost var nested := Nested(DependencyLines(ctx, pkg, deps));
    RenderThen(c0, c1, c2, [open], nested, base);
    RenderThen(c0, c2, out.content, [open] + nested, [Line(0, ")")], base);
  }

  /** The body of the link block: the scoped name of every dependency, in order. */
  method GenerateDependencies(ctx: Context, pkg: string, deps: seq<Dependency>, out: TemplatePrinter)
    modifies out
    ensures out.indent == old(out.indent)
    ensures out.content == old(out.content) + Render(DependencyLines(ctx, pkg, deps), old(out.indent))
  {
    ghost var base, c0 := out.indent, out.content;
    var j := 0;
    while j < |deps|
      invariant 0 <= j <= |deps|
      invariant out.indent == base
      invariant out.content == c0 + Render(DependencyLines(ctx, pkg, deps[..j]), base)
    {
      ghost var before := out.content;
      match deps[j] {
        case TargetRef(target) => out.PutLine(NameWithScope(ctx, TargetGenName(pkg, target)));
        case ProductRef(product) => out.PutLine(NameWithScope(ctx, ProductGenName(product)));
      }
      RenderStep(c0, before, out.content, DependencyLines(ctx, pkg, deps[..j]), Line(0, DependencyName(ctx, pkg, deps[j])), base);
      DependencyLinesSnoc(ctx, pkg, deps, j);
      j := j + 1;
    }
    assert deps[..j] == deps;
  }

  /** `generate_targets`: one line per member target of `p`, at the current level. */
  method GenerateTargets(ctx: Context, out: TemplatePrinter, pkg: string, p: Product, useObjs: bool)
    modifies out
    ensures out.indent == old(out.indent)
    ensures out.content == old(out.content) + Render(MemberLines(ctx, pkg, p.targets, useObjs), old(out.indent))
  {
    ghost var base, c0 := out.indent, out.content;
    var targets := p.targets;
    var i := 0;
    while i < |targets|
      invariant 0 <= i <= |targets|
      invariant out.indent == base
      invariant out.content == c0 + Render(MemberLines(ctx, pkg, targets[..i], useObjs), base)
    {
      ghost var before := out.content;
      var nameWithScope := NameWithScope(ctx, TargetGenName(pkg, targets[i].name));
      out.PutLine(if useObjs then "$<TARGET_OBJECTS:" + nameWithScope + ">" else nameWithScope);
      RenderStep(c0, before, out.content, MemberLines(ctx, pkg, targets[..i], useObjs),
                 Line(0, MemberName(ctx, pkg, targets[i], useObjs)), base);
      MemberLinesSnoc(ctx, pkg, targets, useObjs, i);
      i := i + 1;
    }
    assert targets[..i] == targets;
  }

  /** The members block of a product: `generate_targets` one level deeper. */
  method GenerateMembersBlock(ctx: Context, out: TemplatePrinter, pkg: string, p: Product, useObjs: bool)
    modifies out
    ensures out.indent == old(out.indent)
    ensures out.content == old(out.content) + Render(Nested(MemberLines(ctx, pkg, p.targets, useObjs)), old(out.indent))
  {
    out.Inc();
    GenerateTargets(ctx, out, pkg, p, useObjs);
    out.Dec();
    RenderNested(MemberLines(ctx, pkg, p.targets, useObjs), old(out.indent));
  }

  /** `ResolvedProduct.generate`: dispatch on the product kind. */
  method GenerateProduct(ctx: Context, pkg: string, p: Product, out: TemplatePrinter)
    modifies out
    ensures out.indent == old(out.indent)
    ensures out.content == old(out.content) + Render(ProductLines(ctx, pkg, p), old(out.indent))
    ensures p.kind == Other ==> out.content == old(out.content)
  {
    match p.kind {
      case Dynamic => GenerateDynamic(ctx, pkg, p, out);
      case OtherLibrary => GenerateInterface(ctx, pkg, p, out);
      case Executable => GenerateExecutable(ctx, pkg, p, out);
      case Other =>
    }
  }

  /** The `.library(.dynamic)` case of `ResolvedProduct.generate`. */
  method GenerateDynamic(ctx: Context, pkg: string, p: Product, out: TemplatePrinter)
    modifies out
    ensures out.indent == old(out.indent)
    ensures out.content == old(out.content) + Render(DynamicLines(ctx, pkg, p), old(out.indent))
  {
    ghost var base, c0 := out.indent, out.content;
    var targetName := ProductGenName(p.name);
    var nameWithScope := NameWithScope(ctx, targetName);
    out.PutLine("add_library(" + nameWithScope + " SHARED empty.swift");
    ghost var head := [Line(0, "add_library(" + nameWithScope + " SHARED empty.swift")];
    PutOne(c0, out.content, head[0], base);
    ghost var c1 := out.content;
    GenerateMembersBlock(ctx, out, pkg, p, true);
    ghost var c2 := out.content;
    out.PutLine(")");
    ghost var c := out.content;
    out.PutLine("target_include_directories(" + nameWithScope + " PUBLIC ${CMAKE_CURRENT_BINARY_DIR})");
    PutTwo(c2, c, out.content, Line(0, ")"),
           Line(0, "target_include_directories(" + nameWithScope + " PUBLIC ${CMAKE_CURRENT_BINARY_DIR})"), base);
    ghost var c3 := out.content;
    GenerateModuleName(nameWithScope, nameWithScope + "_product", out);
    ghost var c4 := out.content;
    GenerateLibraryAlias(ctx, targetName, out);

    ghost var members := Nested(MemberLines(ctx, pkg, p.targets, true));
    ghost var incl := PublicIncludeLines(nameWithScope);
    ghost var mod := ModuleNameLines(nameWithScope, nameWithScope + "_product");
    RenderThen(c0, c1, c2, head, members, base);
    RenderThen(c2, c3, c4, incl, mod, base);
    RenderThen(c2, c4, out.content, incl + mod, AliasLines(ctx, targetName), base);
    RenderThen(c0, c2, out.content, head + members, DynamicTail(ctx, nameWithScope, targetName), base);
  }

  /** The `.library(_)` case of `ResolvedProduct.generate`. */
  method GenerateInterface(ctx: Context, pkg: string, p: Product, out: TemplatePrinter)
    modifies out
    ensures out.indent == old(out.indent)
    ensures out.content == old(out.content) + Render(InterfaceLines(ctx, pkg, p), old(out.indent))
  {
    ghost var base, c0 := out.indent, out.content;
    var targetName := ProductGenName(p.name);
    var nameWithScope := NameWithScope(ctx, targetName);
    out.PutLine("add_library(" + nameWithScope + " INTERFACE)");
    ghost var c := out.content;
    out.PutLine("target_link_libraries(" + nameWithScope + " INTERFACE");
    ghost var head := [ Line(0, "add_library(" + nameWithScope + " INTERFACE)"),
                        Line(0, "target_link_libraries(" + nameWithScope + " INTERFACE") ];
    PutTwo(c0, c, out.content, head[0], head[1], base);
    ghost var c1 := out.content;
    GenerateMembersBlock(ctx, out, pkg, p, false);
    ghost var c2 := out.content;
    out.PutLine(")");
    c := out.content;
    out.PutLine("target_include_directories(" + nameWithScope + " INTERFACE ${CMAKE_CURRENT_BINARY_DIR})");
    ghost var incl := [ Line(0, ")"),
                        Line(0, "target_include_directories(" + nameWithScope + " INTERFACE ${CMAKE_CURRENT_BINARY_DIR})") ];
    PutTwo(c2, c, out.content, incl[0], incl[1], base);
    ghost var c3 := out.content;
    GenerateLibraryAlias(ctx, targetName, out);

    ghost var members := Nested(MemberLines(ctx, pkg, p.targets, false));
    RenderThen(c0, c1, c2, head, members, base);
    RenderThen(c2, c3, out.content, incl, AliasLines(ctx, targetName), base);
    RenderThen(c0, c2, out.content, head + members, incl + AliasLines(ctx, targetName), base);
  }

  /** The `.executable` case of `ResolvedProduct.generate`. */
  method GenerateExecutable(ctx: Context, pkg: string, p: Product, out: TemplatePrinter)
    modifies out
    ensures out.indent == old(out.indent)
    ensures out.content == old(out.content) + Render(ExecutableLines(ctx, pkg, p), old(out.indent))
  {
    ghost var base, c0 := out.indent, out.content;
    var targetName := ProductGenName(p.name);
    var nameWithScope := NameWithScope(ctx, targetName);
    out.PutLine("add_executable(" + nameWithScope + " empty.swift");
    ghost var head := [Line(0, "add_executable(" + nameWithScope + " empty.swift")];
    PutOne(c0, out.content, head[0], base);
    ghost var c1 := out.content;
    GenerateMembersBlock(ctx, out, pkg, p, true);
    ghost var c2 := out.content;
    out.PutLine(")");
    ghost var c := out.content;
    out.PutLine("target_include_directories(" + nameWithScope + " PUBLIC ${CMAKE_CURRENT_BINARY_DIR})");
    PutTwo(c2, c, out.content, Line(0, ")"),
           Line(0, "target_include_directories(" + nameWithScope + " PUBLIC ${CMAKE_CURRENT_BINARY_DIR})"), base);

    ghost var members := Nested(MemberLines(ctx, pkg, p.targets, true));
    RenderThen(c0, c1, c2, head, members, base);
    RenderThen(c0, c2, out.content, head + members, PublicIncludeLines(nameWithScope), base);
  }

  /** `ResolvedPackage.generate`: every target in order, then every product in order. */
  method GeneratePackage(ctx: Context, pkg: Package, out: TemplatePrinter)
    modifies out
    ensures out.indent == old(out.indent)
    ensures out.content == old(out.content) + Render(PackageLines(ctx, pkg), old(out.indent))
  {
    ghost var base, c0 := out.indent, out.content;
    GeneratePackageTargets(ctx, pkg.identity, pkg.targets, out);
    ghost var c1 := out.content;
    GeneratePackageProducts(ctx, pkg.identity, pkg.products, out);
    RenderThen(c0, c1, out.content, TargetsLines(ctx, pkg.identity, pkg.targets),
               ProductsLines(ctx, pkg.identity, pkg.products), base);
  }

  /** The `targets.forEach` of `ResolvedPackage.generate`. */
  method GeneratePackageTargets(ctx: Context, pkg: string, targets: seq<Target>, out: TemplatePrinter)
    modifies out
    ensures out.indent == old(out.indent)
    ensures out.content == old(out.content) + Render(TargetsLines(ctx, pkg, targets), old(out.indent))
  {
    ghost var base, c0 := out.indent, out.content;
    var i := 0;
    while i < |targets|
      invariant 0 <= i <= |targets|
      invariant out.indent == base
      invariant out.content == c0 + Render(TargetsLines(ctx, pkg, targets[..i]), base)
    {
      ghost var before := out.content;
      GenerateTarget(ctx, pkg, targets[i], out);
      RenderThen(c0, before, out.content, TargetsLines(ctx, pkg, targets[..i]), TargetLines(ctx, pkg, targets[i]), base);
      TargetsLinesSnoc(ctx, pkg, targets, i);
      i := i + 1;
    }
    assert targets[..i] == targets;
  }

  /** The `products.forEach` of `ResolvedPackage.generate`. */
  method GeneratePackageProducts(ctx: Context, pkg: string, products: seq<Product>, out: TemplatePrinter)
    modifies out
    ensures out.indent == old(out.indent)
    ensures out.content == old(out.content) + Render(ProductsLines(ctx, pkg, products), old(out.indent))
  {
    ghost var base, c0 := out.indent, out.content;
    var j := 0;
    while j < |products|
      invariant 0 <= j <= |products|
      invariant out.indent == base
      invariant out.content == c0 + Render(ProductsLines(ctx, pkg, products[..j]), base)
    {
      ghost var before := out.content;
      GenerateProduct(ctx, pkg, products[j], out);
      RenderThen(c0, before, out.content, ProductsLines(ctx, pkg, products[..j]), ProductLines(ctx, pkg, products[j]), base);
      ProductsLinesSnoc(ctx, pkg, products, j);
      j := j + 1;
    }
    assert products[..j] == products;
  }

  /** `CMakeGen.generate` without the final file write: the text of the whole graph. */
  method Generate(ctx: Context, graph: Graph) returns (content: string)
    ensures content == Render(PackagesLines(ctx, graph.packages), 0)
  {
    var out := new TemplatePrinter();
    var i := 0;
    while i < |graph.packages|
      invariant 0 <= i <= |graph.packages|
      invariant out.indent == 0
      invariant out.content == Render(PackagesLines(ctx, graph.packages[..i]), 0)
    {
      ghost var before := out.content;
      GeneratePackage(ctx, graph.packages[i], out);
      RenderThen("", before, out.content, PackagesLines(ctx, graph.packages[..i]), PackageLines(ctx, graph.packages[i]), 0);
      PackagesLinesSnoc(ctx, graph.packages, i);
      i := i + 1;
    }
    assert graph.packages[..i] == graph.packages;
    content := out.content;
  }
}
