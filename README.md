# cmake-spm generator, modelled in Dafny

cmake-spm turns a resolved SwiftPM package graph into the text of a
`CMakeLists.txt`. This project models the two pieces of the tool's own logic:

- **`Printer`** (`printer.dfy`): the indentation-aware text accumulator
  `TemplatePrinter`. It is a class with an `indent: nat` level and an
  append-only `content` string, plus the methods `Inc`, `Dec`, `Put`, and the
  two forms of the `<|` operator (`PutLine` and `PutBlock`). Two value-level
  views serve as its specification:
  - `Line`/`Render`: lines carrying a depth relative to a base level, and the
    text they produce;
  - `Cmd`/`Exec`: a nested generator written as a program of printer
    operations, and the state that program leads to.
- **`CMakeGen`** (`cmakegen.dfy`): the generator itself.
  - The graph is plain datatypes: `Package(identity, targets, products)`,
    `Target(name, sources, dependencies)`, `Dependency = TargetRef | ProductRef`,
    and `Product(name, kind, targets)` with kind `Dynamic | OtherLibrary |
    Executable | Other`. The optional scope is a `Context`.
  - The naming policy and the string rewriting (module names, source-path
    escaping) are functions.
  - Every renderer (`generateModuleName`, `generateLibraryAlias`,
    `ResolvedTarget.generate`, `ResolvedProduct.generate`, `generate_targets`,
    `ResolvedPackage.generate`, and the package loop of `CMakeGen.generate`) is an
    imperative method. Each appends to a `TemplatePrinter` and loops where the
    source loops.
  - Each renderer is proved to append exactly `Render(XLines(...), level)` and to
    leave the level unchanged. `XLines` is a function giving the lines it emits.
  - Lemmas about those functions state the layout of the output: what each line
    says, where it appears, what is present exactly when, and in which order.

The block form `out <| { ... }` takes a Swift closure. A Dafny method cannot take
one, so each renderer writes out what the operator does: `Inc`, the closure's
body, `Dec`. `TemplatePrinter.PutBlock` models the operator itself over a `Cmd`
program.

The code, and so the model, does the following:
- Every target is declared `STATIC`, whatever its kind. An executable target
  does not get an `add_executable` declaration.
- Targets are never aliased. Only dynamic and other library products get an
  alias line.
- A product's member targets, and a target's target dependencies, are named
  with the identity of the package being rendered.

## Model

| member | source | states |
|---|---|---|
| Printer.Spaces | Sources/cmake-spm/TemplatePrinter.swift:28 | the indentation prefix of `n` spaces has length exactly `n` |
| Printer.SpacesOnly | Sources/cmake-spm/TemplatePrinter.swift:28 | every character of the indentation prefix is a space |
| Printer.IndentedShape | Sources/cmake-spm/TemplatePrinter.swift:27-29 | what `put(s)` appends at level `l` is exactly `2*l` spaces, then `s`, then one newline |
| Printer.DeeperByTwoSpaces | Sources/cmake-spm/TemplatePrinter.swift:13-19 | a line put one level deeper is the same line with exactly two more leading spaces |
| Printer.RenderAppend | Sources/cmake-spm/TemplatePrinter.swift:27-29 | putting `a` then `b` produces the text of `a` followed by the text of `b`: no line is lost or reordered |
| Printer.RenderNested | Sources/cmake-spm/TemplatePrinter.swift:37-41 | lines nested one level, put from level `l`, give the same text as the lines put from level `l + 1` |
| Printer.DecUndoesInc | Sources/cmake-spm/TemplatePrinter.swift:17-25 | `dec` after `inc` gives back the level before, from any level |
| Printer.ExecAppend | Sources/cmake-spm/TemplatePrinter.swift:33-41 | a generator program runs its operations one after the other, in order |
| Printer.ExecAppendOnly | Sources/cmake-spm/TemplatePrinter.swift:15-29 | whatever a generator does, the earlier content stays a prefix of the new content |
| Printer.WellNestedBalanced | Sources/cmake-spm/TemplatePrinter.swift:37-41 | a generator made only of puts and blocks leaves the level where it found it, from any level |
| Printer.BlockRestoresIndent | Sources/cmake-spm/TemplatePrinter.swift:21-41 | the block operator restores the level if and only if its generator, started one level deeper, ends there (or everything is at level 0) |
| Printer.ExecPuts | Sources/cmake-spm/TemplatePrinter.swift:33-35 | a run of string puts keeps the level and appends each string as a line at that level, in order |
| Printer.BlockOfPuts | Sources/cmake-spm/TemplatePrinter.swift:37-41 | string puts inside a block are those lines one level deeper, and the level afterwards is the level before |
| Printer.TemplatePrinter.constructor | Sources/cmake-spm/TemplatePrinter.swift:12-15 | a new printer is at level 0 with empty content |
| Printer.TemplatePrinter.Inc | Sources/cmake-spm/TemplatePrinter.swift:17-19 | the level rises by exactly one; the content is unchanged |
| Printer.TemplatePrinter.Dec | Sources/cmake-spm/TemplatePrinter.swift:21-25 | the level drops by one when positive and stays 0 at 0; the content is unchanged |
| Printer.TemplatePrinter.Put | Sources/cmake-spm/TemplatePrinter.swift:27-29 | the content gains exactly the indented line plus a newline; the level is unchanged |
| Printer.TemplatePrinter.PutLine | Sources/cmake-spm/TemplatePrinter.swift:33-35 | the string form of `<|` has exactly the effect of `put` |
| Printer.TemplatePrinter.PutBlock | Sources/cmake-spm/TemplatePrinter.swift:37-41 | the block form of `<|` leads to the state given by `ExecCmd(Block(body))`: `inc`, the generator, `dec` |
| Printer.TemplatePrinter.Run | Sources/cmake-spm/TemplatePrinter.swift:39 | running a generator against the printer leads to the state given by `Exec` |
| CMakeGen.StripScopeRoundTrip | Sources/cmake-spm/CMakeGen.swift:41-47 | stripping the scope prefix `S-` (nothing when no scope is set) from a scoped name gives the name back |
| CMakeGen.NameWithScopeInjective | Sources/cmake-spm/CMakeGen.swift:41-47 | under one scope, distinct names get distinct scoped names |
| CMakeGen.TargetGenNameShape | Sources/cmake-spm/CMakeGen.swift:69-71 | a target's generated name is the package identity, then `__`, then the target name |
| CMakeGen.TargetGenNameInjective | Sources/cmake-spm/CMakeGen.swift:69-71 | within one package, distinct target names get distinct generated names |
| CMakeGen.TargetGenNameCrossPackageCollision | Sources/cmake-spm/CMakeGen.swift:69-71 | across packages, generated names can collide (`a_` + `b` and `a` + `_b`) |
| CMakeGen.DependencyLinksDeclaration | Sources/cmake-spm/CMakeGen.swift:74-78 | a reference to target `t` links exactly the name `t` is declared under in the same package, and a reference to product `p` links exactly the name `p` is declared under |
| CMakeGen.TargetDependencyNameInjective | Sources/cmake-spm/CMakeGen.swift:132-133 | within one package, distinct target references are linked by distinct names |
| CMakeGen.ProductDependencyNameIgnoresPackage | Sources/cmake-spm/CMakeGen.swift:75-77 | a product reference's linked name does not depend on the package the reference is made from |
| CMakeGen.ProductDependencyNameInjective | Sources/cmake-spm/CMakeGen.swift:134-135 | distinct products get distinct linked names, even when linked from different packages |
| CMakeGen.ProductScopedNameInjective | Sources/cmake-spm/CMakeGen.swift:148-150 | under one scope, products with distinct names are declared under distinct names |
| CMakeGen.ReplaceChar | Sources/cmake-spm/CMakeGen.swift:116-117 | one-character replacement keeps the length and replaces exactly the matching characters |
| CMakeGen.ModuleName | Sources/cmake-spm/CMakeGen.swift:83 | the module name has the same length as the target name, every `-` becomes `_`, and no `-` is left |
| CMakeGen.EscapeSpaces | Sources/cmake-spm/CMakeGen.swift:116 | in an escaped path, every space is preceded by a backslash |
| CMakeGen.EscapePath | Sources/cmake-spm/CMakeGen.swift:115-117 | an escaped source path contains no `>`, and every space in it is escaped |
| CMakeGen.ReplaceCharAppend | Sources/cmake-spm/CMakeGen.swift:116-117 | replacement works piecewise: on `a + b` it gives the result on `a` followed by the result on `b` |
| CMakeGen.EscapeSpacesCommutes | Sources/cmake-spm/CMakeGen.swift:116-117 | escaping spaces and replacing `>` can be applied in either order |
| CMakeGen.UnescapeEscapeSpaces | Sources/cmake-spm/CMakeGen.swift:116 | space escaping can be read back. It loses nothing, even for paths that already contain backslashes |
| CMakeGen.EscapePathRoundTrip | Sources/cmake-spm/CMakeGen.swift:115-117 | reading an escaped path back gives the original path with `>` replaced by `_`: that is the only information lost |
| CMakeGen.ModuleNameBlock | Sources/cmake-spm/CMakeGen.swift:80-90 | the module-name block is exactly three lines: `set_target_properties(T PROPERTIES`, `Swift_MODULE_NAME m` one level deeper with no `-` in `m`, and `)` |
| CMakeGen.AliasLine | Sources/cmake-spm/CMakeGen.swift:92-99 | the alias line is present if and only if a scope `S` is set, and is then exactly `add_library(S::T ALIAS S-T)` |
| CMakeGen.SourceLineShape | Sources/cmake-spm/CMakeGen.swift:113-119 | a source line is `${CMAKE_CURRENT_LIST_DIR}/` followed by the escaped path. The path part has no `>` and reads back as the path with `>` replaced by `_` |
| CMakeGen.TargetDeclaration | Sources/cmake-spm/CMakeGen.swift:105 | a target opens with `add_library(N STATIC`, whatever its kind |
| CMakeGen.TargetWithoutSources | Sources/cmake-spm/CMakeGen.swift:107-121 | a target without sources has one `empty.swift` line at the declaration's level, with the block closed immediately after it |
| CMakeGen.TargetWithSources | Sources/cmake-spm/CMakeGen.swift:113-120 | a target with sources has one `${CMAKE_CURRENT_LIST_DIR}/p` line per source, one level deeper, in source order, right after its declaration |
| CMakeGen.TargetTailAt | Sources/cmake-spm/CMakeGen.swift:121-140 | everything after a target's sources block is the include directive, the module-name block and the link block |
| CMakeGen.TargetSourcesClosed | Sources/cmake-spm/CMakeGen.swift:121-123 | the sources block is closed by `)` right after the sources, followed by `target_include_directories(N PUBLIC ...)` |
| CMakeGen.TargetModuleName | Sources/cmake-spm/CMakeGen.swift:125 | the include directive is followed by the module-name block of `N` for the target's own name |
| CMakeGen.TargetEndsWithLinks | Sources/cmake-spm/CMakeGen.swift:127-140 | a target's lines end with its link block, and nothing follows it |
| CMakeGen.TargetLinked | Sources/cmake-spm/CMakeGen.swift:127 | a target has lines after its module-name block if and only if it has dependencies |
| CMakeGen.LinkBlockPresent | Sources/cmake-spm/CMakeGen.swift:127-140 | the link block is empty if and only if there are no dependencies |
| CMakeGen.LinkBlockShape | Sources/cmake-spm/CMakeGen.swift:127-140 | a link block is `target_link_libraries(N PRIVATE`, then one line per dependency, one level deeper, in dependency order, naming that dependency's scoped generated name, then `)` |
| CMakeGen.DynamicProduct | Sources/cmake-spm/CMakeGen.swift:160-164 | a dynamic library opens with `add_library(N SHARED empty.swift`, where `N` is the scoped bare product name `scope(p.name)`, then lists its members' objects one level deeper |
| CMakeGen.DynamicProductEnd | Sources/cmake-spm/CMakeGen.swift:165-170 | after its members, a dynamic library has the public include directive, the module name `N_product`, and the alias |
| CMakeGen.InterfaceProduct | Sources/cmake-spm/CMakeGen.swift:172-177 | any other library, with `N` the scoped bare product name `scope(p.name)`, opens with `add_library(N INTERFACE)` and `target_link_libraries(N INTERFACE`, then lists its members' plain names one level deeper |
| CMakeGen.InterfaceProductEnd | Sources/cmake-spm/CMakeGen.swift:178-181 | after its members, an interface library has `)`, the interface include directive, and the alias |
| CMakeGen.ExecutableProduct | Sources/cmake-spm/CMakeGen.swift:183-187 | an executable opens with `add_executable(N empty.swift`, where `N` is the scoped bare product name `scope(p.name)`, then lists its members' objects one level deeper |
| CMakeGen.ExecutableProductEnd | Sources/cmake-spm/CMakeGen.swift:188-190 | an executable is exactly its members plus three lines, ending with the public include directive: no alias, whatever the scope |
| CMakeGen.TargetsLinesAppend | Sources/cmake-spm/CMakeGen.swift:60 | the targets of `a + b` render as those of `a`, then those of `b` |
| CMakeGen.ProductsLinesAppend | Sources/cmake-spm/CMakeGen.swift:61 | the products of `a + b` render as those of `a`, then those of `b` |
| CMakeGen.PackagesLinesAppend | Sources/cmake-spm/CMakeGen.swift:32-34 | the packages of `a + b` render as those of `a`, then those of `b` |
| CMakeGen.GraphOrder | Sources/cmake-spm/CMakeGen.swift:32-34 | the generated text for the packages `a + b` is the text for `a` followed by the text for `b` |
| CMakeGen.GenerateModuleName | Sources/cmake-spm/CMakeGen.swift:80-90 | appends exactly the module-name block at the current level and restores the level |
| CMakeGen.GenerateLibraryAlias | Sources/cmake-spm/CMakeGen.swift:92-99 | appends exactly the alias lines (none without a scope) and leaves the level unchanged |
| CMakeGen.GenerateTarget | Sources/cmake-spm/CMakeGen.swift:102-141 | appends exactly the target's lines at the current level and restores the level |
| CMakeGen.GenerateSources | Sources/cmake-spm/CMakeGen.swift:105-120 | appends the declaration, then the source paths one level deeper, and restores the level |
| CMakeGen.GenerateDeclaration | Sources/cmake-spm/CMakeGen.swift:105-111 | appends the STATIC declaration, plus `empty.swift` exactly when there are no sources |
| CMakeGen.GenerateSourcePaths | Sources/cmake-spm/CMakeGen.swift:114-119 | appends one escaped path line per source, in order, at the current level |
| CMakeGen.GenerateLinks | Sources/cmake-spm/CMakeGen.swift:127-140 | appends exactly the link block (nothing without dependencies) and restores the level |
| CMakeGen.GenerateDependencies | Sources/cmake-spm/CMakeGen.swift:130-137 | appends one scoped dependency name per dependency, in order, at the current level |
| CMakeGen.GenerateTargets | Sources/cmake-spm/CMakeGen.swift:196-204 | appends one member line per member target, in order, at the current level |
| CMakeGen.GenerateMembersBlock | Sources/cmake-spm/CMakeGen.swift:162-164 | appends the member lines one level deeper and restores the level |
| CMakeGen.GenerateProduct | Sources/cmake-spm/CMakeGen.swift:155-194 | appends exactly the lines for the product's kind and restores the level; for every other kind the content is unchanged |
| CMakeGen.GenerateDynamic | Sources/cmake-spm/CMakeGen.swift:160-170 | appends exactly the dynamic-library lines and restores the level |
| CMakeGen.GenerateInterface | Sources/cmake-spm/CMakeGen.swift:172-181 | appends exactly the interface-library lines and restores the level |
| CMakeGen.GenerateExecutable | Sources/cmake-spm/CMakeGen.swift:183-190 | appends exactly the executable lines and restores the level |
| CMakeGen.GeneratePackage | Sources/cmake-spm/CMakeGen.swift:59-62 | appends the package's targets' lines, then its products' lines |
| CMakeGen.GeneratePackageTargets | Sources/cmake-spm/CMakeGen.swift:60 | appends the lines of every target, in order |
| CMakeGen.GeneratePackageProducts | Sources/cmake-spm/CMakeGen.swift:61 | appends the lines of every product, in order |
| CMakeGen.Generate | Sources/cmake-spm/CMakeGen.swift:29-35 | the content is the rendering from level 0 of every package's lines, in graph order |

## Left out

- Writing the content to the `CMakeLists.txt` file (`Sources/cmake-spm/CMakeGen.swift:36-37`) is file I/O. `Generate` returns the content instead.
- Making source paths relative to the output directory (`Sources/cmake-spm/CMakeGen.swift:115`) is a SwiftPM path computation. Source paths are given already relative, and only the escaping applied to them is modelled.
- The SwiftPM types (`PackageGraph`, `ResolvedPackage`, `ResolvedTarget`, `ResolvedProduct`, `PackageIdentity`) are replaced by plain datatypes. Product kind `library(.dynamic)` becomes `Dynamic`, every other library kind becomes `OtherLibrary`, `executable` becomes `Executable`, and every remaining kind becomes `Other`.
- Strings are modelled as sequences of Unicode scalars, and `ReplaceChar`, `ModuleName` and `EscapeSpaces` match scalar by scalar. Foundation's `replacingOccurrences(of:with:)` without the `.literal` option (`Sources/cmake-spm/CMakeGen.swift:83`, `:116-117`) compares by canonical equivalence, so a `-`, space or `>` followed by a combining mark may be left alone by the code but is replaced by the model.
- Dependency conditions are not modelled, because the code discards them (`Sources/cmake-spm/CMakeGen.swift:132` and `:134`).
- The `GenContext` protocol and the `CMakeGen` class holding the graph, root path and scope are reduced to a `Context` value. `getScopeName` is that value's `scopeName` field.
- `CMakeGen.TargetGenNameCrossPackageCollision` exhibits a collision but is not reported as a defect. Package identities are assumed not to be chosen that way.
- `Printer.TemplatePrinter.PutBlock` takes the nested generator as a `Cmd` program rather than a closure. The renderers expand each block inline as `Inc`, body, `Dec`.
- Integer width of `indent` is not modelled. The level is a `nat`, which the source's `Int` never leaves because `dec` stops at 0.
- `Sources/cmake-spm/cmake_spm.swift` is not part of this model. It holds the command-line interface, workspace loading and dependency parsing, which are I/O and calls into foreign libraries.
- `Package.swift` is not part of this model. It is the build manifest.
- The code has no system-library targets, C-family settings or build-setting directives, so the model has none either.
