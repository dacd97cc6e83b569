# Sugar modularize, modelled in Dafny

Sugar's build script (`gulpfile.js`) can split the library into npm
packages. Each package holds one unit of the library in its own file. A
unit is one of these:
- a top-level variable or constant;
- an internal function;
- a group of variables filled in by a `build…` function;
- a public method such as `Sugar.Array.unique`.

`modularize()` does the split:
1. It parses the eleven library modules in a fixed order.
2. It walks each module's top-level statements.
3. It registers each unit in the `topLevel` dictionary, keyed by name.
4. It registers each method in the `sugarMethods` dictionary, keyed by
   `namespace|name`.
5. For each analysed declaration, it computes the free identifiers that the
   package must require.
6. It writes one bundle per module except `common`. The bundle requires the
   module's methods.
7. It writes every registered unit and method under `release/npm/sugar`.

The two helpers `getFiles` and `getModules` turn a `-p` package list into the
source files to build and into the module list for the browser build.

This project models that machinery and proves what it guarantees. The
modules follow the script's structure:

| file | models |
|---|---|
| `prelude.dfy` | the JavaScript string and array operations the script relies on: `split`, `join`, `slice`, `indexOf`, `\w`, `\s`, `toLowerCase`, and dictionaries as insertion-ordered entry lists |
| `sorting.dfy` | `Array.prototype.sort` with the length comparator (stable, as ECMAScript 2019 requires) and with the default comparator |
| `ast.dfy` | the parser's node tree, as far as the script reads it |
| `dependencies.dfy` | `getDependencies`: a walker object whose local and dependency lists change in place, proved against a trace of the tree |
| `namespaces.dfy` | comment handling, namespace ranges, and method names found in doc comments |
| `classifier.dfy` | the `is…` predicates and the order in which `processTopLevelNode` tries them |
| `packages.dfy` | package records and how a package is built from a declaration |
| `operations.dfy` | every registry operation as a function on the two dictionaries |
| `registry.dfy` | the same operations as methods of a mutable `Registry` object, each proved equal to its function |
| `emitter.dfy` | the text of a package file (`writePackage`) |
| `driver.dfy` | `parseModule`, the module bundles, and the whole run in order |
| `files.dfy` | `getFiles` and `getModules` |

The parser, the file system and `path.relative` are inputs:
- Each library file arrives as its text, its comments and its top-level
  statements.
- `path.relative` is a function parameter.
- A run returns the files it writes, in the order it writes them.

## Model

| member | source | states |
|---|---|---|
| Prelude.SplitJoinRoundTrip | gulpfile.js:115 | joining the pieces of a `split` with the separator gives the string back |
| Prelude.SplitPiecesLackSeparator | gulpfile.js:115 | no piece of a `split` contains the separator |
| Prelude.AddAllMembership | gulpfile.js:495-500 | adding names one at a time, skipping names already present, keeps exactly the old names and the added ones |
| Prelude.AddAllNoDup | gulpfile.js:495-500 | that accumulation never creates a duplicate |
| Sorting.SortByLength | gulpfile.js:1177-1181 | the result is ordered by length, is a permutation of the input, and keeps the input order among strings of equal length (stable, as ECMAScript 2019 requires) |
| Sorting.InsertByLengthStable | gulpfile.js:1177-1181 | inserting one string keeps the relative order of the strings of every length |
| Sorting.SortByChars | gulpfile.js:1101 | the default `sort()` result is ordered by code points and is a permutation of the input |
| Sorting.CharOrderTotal | gulpfile.js:1101 | any two strings are comparable under the default comparator |
| Sorting.CharOrderTransitive | gulpfile.js:1101 | the default comparator is transitive |
| Sorting.SortedByCharsPairwise | gulpfile.js:1101 | in a sorted list, every earlier string is at most every later one |
| Ast.TypeName | gulpfile.js:619-621 | a node kind the walker does not know reports the parser's own type name |
| Dependencies.DependencyWalker.Walk | gulpfile.js:502-623 | walking a node reports the first unsupported node type in walk order, if any; otherwise the local and dependency lists are the old ones replayed through the node's trace |
| Dependencies.DependencyWalker.WalkSingle | gulpfile.js:513-621 | identifiers are recorded as references; statements, properties and arguments walk their one part; leaves do nothing; any other node type throws, as the trace says |
| Dependencies.DependencyWalker.WalkList | gulpfile.js:542-584 | declarations, sequences, object and array literals and blocks walk their list of nodes, as the trace says |
| Dependencies.DependencyWalker.WalkDeclarator | gulpfile.js:516-519 | a declarator binds its name, then walks its initializer |
| Dependencies.DependencyWalker.WalkFunctionDeclaration | gulpfile.js:520-524 | a function declaration binds its name and its parameters, then walks its body |
| Dependencies.DependencyWalker.WalkFunctionExpression | gulpfile.js:525-528 | a function expression binds its parameters, then walks its body |
| Dependencies.DependencyWalker.WalkCatchClause | gulpfile.js:529-532 | a catch clause binds its parameter node, then walks its body |
| Dependencies.DependencyWalker.WalkMemberOrSwitch | gulpfile.js:533-599 | a member expression walks its object and, only when computed, its property; a switch walks its discriminant then its cases; a case walks its test then its body, as the trace says |
| Dependencies.DependencyWalker.WalkPair | gulpfile.js:574-605 | loop, call and binary nodes walk their two parts in source order, as the trace says |
| Dependencies.DependencyWalker.WalkTriple | gulpfile.js:555-599 | try statements walk their block, handler and finalizer; if statements and conditionals their test, consequent and alternate, in that order, as the trace says |
| Dependencies.DependencyWalker.WalkFor | gulpfile.js:563-573 | a for loop walks its init, test, update and body; a for-in loop its left side, right side and body, in that order, as the trace says |
| Dependencies.DependencyWalker.WalkAll | gulpfile.js:502-508 | walking a list walks each node in turn and stops at the first unsupported one |
| Dependencies.DependencyWalker.PushLocal | gulpfile.js:482-487 | records one binder |
| Dependencies.DependencyWalker.PushLocals | gulpfile.js:489-493 | records the binders for a list of names, in order |
| Dependencies.DependencyWalker.PushDependency | gulpfile.js:495-500 | records a referenced name once |
| Dependencies.GetDependencies | gulpfile.js:473-631 | the walker's result equals the specification `DependencyList` |
| Dependencies.ReplayDeps | gulpfile.js:495-500 | a name ends up in the dependency list iff it was there before or the walk referenced it |
| Dependencies.ReplayLocals | gulpfile.js:482-493 | a binder ends up in the locals iff it was there before or the walk bound it |
| Dependencies.ReplayNoDup | gulpfile.js:495-500 | the dependency list never holds a name twice |
| Dependencies.KeepValid | gulpfile.js:625-630 | the filter keeps exactly the names that are not locals, not truthy globals and not whitelisted; it keeps the list free of duplicates |
| Dependencies.DependencyListExact | gulpfile.js:473-631 | a successful result has no duplicates, and a name is in it iff the tree references it, nothing in the tree binds it, it is not a global and it is not whitelisted |
| Dependencies.UnknownNodeThrows | gulpfile.js:619-621 | the analysis fails iff the walk meets an unsupported node; the error names that node's type |
| Dependencies.StaticPropertyIgnored | gulpfile.js:533-538 | a non-computed `a.b` depends on `a` only; a computed `a[b]` walks both parts |
| Dependencies.CatchParameterNotExcluded | gulpfile.js:529-532 | for every parameter and body, a catch clause has exactly the dependencies of its body: its parameter hides no name, so a name used in the handler is still reported unless a declaration binds it, it is a truthy global or it is whitelisted |
| Dependencies.LocalsAreNotScoped | gulpfile.js:621-630 | in every block, a parameter of a function declared or written as one of its statements hides that name everywhere in the block, outside the function too: the name is never a dependency of the block |
| Dependencies.FirstUnsupported | gulpfile.js:619-621 | no unsupported node is reported iff the trace has none; a reported node type comes from the trace |
| Namespaces.TagAt | gulpfile.js:642-647 | a tag read at a position is a word that follows `@namespace ` or `@package ` there |
| Namespaces.LastNamespaceTag | gulpfile.js:642-647 | the namespace taken from a comment is a word, and there is one iff the comment holds a tag |
| Namespaces.NoTagWithoutAt | gulpfile.js:642-647 | a comment without `@` names no namespace |
| Namespaces.NamespaceTracker.OnComment | gulpfile.js:636-648 | stores the comment under its end line; a tagged comment opens a namespace range at that line; an untagged one leaves the ranges alone |
| Namespaces.NamespaceTracker.NamespaceBoundary | gulpfile.js:650-660 | closes the open range into the stored list and opens a new one only for a non-empty name |
| Namespaces.NamespaceTracker.NamespaceFor | gulpfile.js:662-670 | the result equals `NamespaceAt` of the stored ranges |
| Namespaces.NamespaceAtIsLastAbove | gulpfile.js:662-670 | a node's namespace is that of the last stored range starting above the node's line; there is none iff no range starts above it |
| Namespaces.FullMethodKey | gulpfile.js:672-675 | a method key is `namespace|name` |
| Namespaces.NamespaceTracker.LastCommentBefore | gulpfile.js:828-834 | the result equals `NearestComment` of the stored comments |
| Namespaces.NearestCommentIsClosest | gulpfile.js:828-834 | the comment found is the one ending on the closest line above the node; there is none iff no comment ends above it |
| Namespaces.NamespaceTracker.MethodNamesInPreviousComment | gulpfile.js:836-854 | with no comment above, reading it is a TypeError; otherwise the result is the method names that the comment's `@method` and `@set` tags give |
| Namespaces.CommentMethodNamesClean | gulpfile.js:836-854 | no method name read from a comment holds a comma, white space or `*` (a name may be empty: see `StarOnlySetGivesEmptyName`) |
| Namespaces.SetBlockRoundTrip | gulpfile.js:841-845 | a block `@set a,b,…` of non-empty names free of commas, white space, `*`, `@` and `/` reads back as exactly those names, in order |
| Namespaces.StarOnlySetGivesEmptyName | gulpfile.js:841-845 | a `@set` list holding only an asterisk trims to nothing and yields one empty method name |
| Namespaces.SetList | gulpfile.js:841-845 | a `@set` list is non-empty and stops before the first `@` or `/` |
| Namespaces.MethodTag | gulpfile.js:846-850 | a `@method` name is a word |
| Classifier.IsBuildExpression | gulpfile.js:724-728 | a call whose callee has no name is a TypeError; otherwise a call matches iff the callee's name starts with `build` |
| Classifier.ClassifyFirstMatch | gulpfile.js:677-690 | a statement takes the first shape, in the order the switch tries them, that it matches |
| Classifier.ClassifyFailures | gulpfile.js:677-728 | a statement that matches nothing is an unknown top-level node; a call with a non-identifier callee that matches nothing earlier is a TypeError; nothing else fails |
| Classifier.MemberCalleeIsTypeError | gulpfile.js:724-728 | a call statement such as `a.b(…)` stops the run with a TypeError |
| Packages.Downcase | gulpfile.js:469-471 | lower-cases the first character only |
| Packages.DowncaseIdempotent | gulpfile.js:469-471 | lower-casing the first character twice is the same as once |
| Packages.GroupName | gulpfile.js:952 | a `buildX…` function's group is named `x…`: the prefix is dropped and the next letter lower-cased |
| Packages.AppendBlock | gulpfile.js:860-863 | appending a block to an empty body gives the block; otherwise the two are joined by a newline |
| Packages.RequirePath | gulpfile.js:1056-1061 | a require path always starts with `.`; `./` is added only when it does not |
| Packages.RequirePathIdempotent | gulpfile.js:1056-1061 | making a require path twice is the same as once |
| Packages.FirstAssignFrom | gulpfile.js:749 | finds the first `name = value` assignment at or after a position, and none is skipped |
| Packages.SimpleAliasTargetOf | gulpfile.js:749-755 | a declaration `a = b` between two path words is read as a re-export of `b` |
| Packages.NormalizeAssignOf | gulpfile.js:749 | the blanks around `=` are normalised to single spaces |
| Packages.UnitPackage | gulpfile.js:746-785 | fails iff the dependency analysis fails; `Sugar` becomes the core flag and never a dependency; every other dependency is kept; name, node and type are recorded; there is no alias, init or require list |
| Packages.VariableReexport | gulpfile.js:748-758 | a variable declared as `a = b` gets no body and exports `b` |
| Packages.MethodPackage | gulpfile.js:799-826 | a method with a body fails if its dependency analysis fails; otherwise it fails iff no namespace is open at its line; it exports `Sugar.<namespace>.<name>`, is core, keeps its requires and has no alias; without a body it has no body and no dependencies |
| Packages.MethodPackageFrom | gulpfile.js:799-826 | the package path is the lower-cased namespace; a defining call opens with `Sugar.<namespace>.<define>({` |
| Operations.AddTopLevel | gulpfile.js:746-785 | registers the unit under its name, replacing any earlier one; no other unit and no method changes; fails iff the package cannot be built |
| Operations.AddDeclaratorsRegistersAll | gulpfile.js:787-793 | after a variable declaration every declarator is registered and no earlier unit is lost |
| Operations.AddSugarMethod | gulpfile.js:799-826 | registers the method under its namespaced key; units are unchanged |
| Operations.MethodRegisteredUnderNamespace | gulpfile.js:799-826 | a registered method sits under `namespace|name` and exports `Sugar.<namespace>.<name>` |
| Operations.BlockProperties | gulpfile.js:865-874 | a method block must pass an object literal as its second argument |
| Operations.AddBlockMethodsKeepsUnits | gulpfile.js:865-874 | defining a block of methods leaves the units unchanged |
| Operations.AddNamedMethodsKeepsUnits | gulpfile.js:799-826 | defining methods listed in a comment leaves the units unchanged |
| Operations.AliasNames | gulpfile.js:1014-1021 | an alias call needs two string literal arguments after the target |
| Operations.MemberAssignmentExtends | gulpfile.js:876-888 | `x.y = …` appends its text to unit `x`'s body and appends the assignment's dependencies, minus `x` itself, to `x`'s list; `x`'s exports and every other entry are unchanged |
| Operations.Without | gulpfile.js:876-888 | removes exactly the unit's own name from its new dependencies |
| Operations.UnassignedVars | gulpfile.js:908-918 | lists exactly the dependencies that are registered variables without a body, together with their stored packages |
| Operations.UnassignedVarsComplete | gulpfile.js:908-918 | every such dependency is listed |
| Operations.KeptDeps | gulpfile.js:908-918 | the build function keeps exactly its other dependencies |
| Operations.SetAliasesMarks | gulpfile.js:945-974 | every variable of a group becomes an alias of the group |
| Operations.SetAliasesOthers | gulpfile.js:945-974 | marking a group changes no other unit |
| Operations.BuildWithoutUnassigned | gulpfile.js:920-928 | with no unassigned variables the build function loses its exports, keeps its body and dependencies, and gains the call as its init |
| Operations.BuildWithOneUnassigned | gulpfile.js:930-943 | with one unassigned variable, the function's body is appended to it, the call becomes its init, and the function's other dependencies are added to it |
| Operations.BuildWithSeveralUnassigned | gulpfile.js:945-974 | with several, a new group package named after the build function, in `<module>/vars`, whose body is the variables' declarations joined by newlines, a blank line, then the build function; it exports all of them, depends on the function's other dependencies and holds the call; each variable becomes an alias of it; no other unit changes |
| Operations.ProcessBuildUnits | gulpfile.js:890-974 | processing a build call resolves the build function's unassigned variables and kept dependencies as above |
| Operations.SimilarNamesFromLiteral | gulpfile.js:978-1011 | a comma-separated literal of method names is read back as exactly those names |
| Operations.ScanBuildBodyKeepsUnits | gulpfile.js:978-1011 | scanning a build function's body for method definitions leaves the units unchanged |
| Operations.ProcessTopLevelNode | gulpfile.js:677-690 | a statement the classifier rejects stops processing with the classifier's error; `"use strict"` changes nothing |
| Operations.ProcessTopLevelNodeFrame | gulpfile.js:677-690 | declarations and member assignments change only units; method blocks and aliases change only methods |
| Operations.ProcessStatementsConcat | gulpfile.js:1045-1047 | processing two runs of statements is processing the first, then the second, stopping at the first error |
| Operations.UnknownStatementStops | gulpfile.js:677-690 | an unknown statement stops the module with an error that names its type, whatever follows it |
| Registry.Registry.AddTopLevel | gulpfile.js:746-785 | the registry reaches the state `Operations.AddTopLevel` computes, or reports its error |
| Registry.Registry.AddVars | gulpfile.js:787-793 | registers each declarator in turn, as `AddDeclarators` does |
| Registry.Registry.AddInternal | gulpfile.js:795-797 | registers an internal function, as `Operations.AddInternal` does |
| Registry.Registry.AddSugarMethod | gulpfile.js:799-826 | registers a method, as `Operations.AddSugarMethod` does |
| Registry.Registry.AddBlockMethods | gulpfile.js:865-874 | registers each property of a method block in turn |
| Registry.Registry.AddNamedMethods | gulpfile.js:799-826 | registers each method named in a doc comment in turn |
| Registry.Registry.ProcessMethodBlock | gulpfile.js:865-874 | reaches the state `Operations.ProcessMethodBlock` computes |
| Registry.Registry.ProcessAlias | gulpfile.js:1014-1021 | reaches the state `Operations.ProcessAlias` computes |
| Registry.Registry.ProcessMemberAssignment | gulpfile.js:876-888 | reaches the state `Operations.ProcessMemberAssignment` computes |
| Registry.Registry.SimilarNames | gulpfile.js:978-1011 | reads the method names of a similar-method call, as `Operations.SimilarNames` does |
| Registry.Registry.ScanStatement | gulpfile.js:978-1011 | processes one statement of a build function's body |
| Registry.Registry.ScanBuildBody | gulpfile.js:978-1011 | processes a build function's body statement by statement |
| Registry.Registry.PartitionDependencies | gulpfile.js:908-918 | fails with a TypeError iff some dependency is not a registered unit; otherwise splits the dependencies into unassigned variables and kept names |
| Registry.Registry.MarkGroup | gulpfile.js:955-959 | marks the group's variables as aliases and returns their names and bodies |
| Registry.Registry.Resolve | gulpfile.js:920-974 | updates the unit registry in place exactly as `Operations.ResolveBuild` says, for none, one or several unassigned variables, and leaves the method registry alone |
| Registry.Registry.ProcessBuild | gulpfile.js:890-1012 | reaches the state `Operations.ProcessBuild` computes |
| Registry.Registry.ProcessTopLevelNode | gulpfile.js:677-690 | reaches the state `Operations.ProcessTopLevelNode` computes |
| Registry.Registry.ProcessStatements | gulpfile.js:1045-1047 | processes a module's statements in order, stopping at the first error |
| Emitter.NonAliasedExact | gulpfile.js:1162-1175 | a dependency stays named iff it is not an alias |
| Emitter.AliasGroupsExact | gulpfile.js:1162-1175 | the groups listed are exactly those some dependency is an alias of, each once |
| Emitter.GroupAliases | gulpfile.js:1162-1175 | the result is the non-alias dependencies followed by the groups they stand for |
| Emitter.DependencyPath | gulpfile.js:1189-1197 | fails with a missing-dependency error iff the name is neither a unit nor a method; a path found starts with `.` |
| Emitter.NamedRequiresFail | gulpfile.js:1088-1107 | the named and the unnamed requires fail iff some name is unknown |
| Emitter.RequiresBlockFails | gulpfile.js:1088-1107 | the requires block fails iff some dependency or require is unknown, and only with a missing-dependency error |
| Emitter.TokenAssigns | gulpfile.js:1113-1131 | each exported token of a group becomes `token = group.token` |
| Emitter.AssignLinesComplete | gulpfile.js:1113-1131 | every token of every multi-export dependency gets its assignment |
| Emitter.AssignsOnlyForGroups | gulpfile.js:1113-1131 | without a multi-export dependency the assigns block is empty |
| Emitter.Assigns | gulpfile.js:1113-1131 | the loop's result equals `AssignsBlock` |
| Emitter.ExportEntries | gulpfile.js:1152-1155 | each exported name becomes the entry `'name': name` |
| Emitter.ExportsBlock | gulpfile.js:1133-1160 | empty iff nothing truthy is exported; otherwise `module.exports = …;`; the token `core` exports the core library's require |
| Emitter.ExportsSingleName | gulpfile.js:1146-1150 | a single name is exported as itself |
| Emitter.ExportsSeveralNames | gulpfile.js:1151-1159 | several names are exported as an object literal whose entries are sorted by length and include every name |
| Emitter.JoinIgnoresEmpty | gulpfile.js:1228-1232 | empty blocks leave no trace in the joined text |
| Emitter.OutputHoistsInternal | gulpfile.js:1213-1221 | an internal function that exports something starts with the directive, the hoisting note with the body, and the exports, in that order |
| Emitter.OutputExportsLast | gulpfile.js:1222-1225 | any other package starts with the directive and ends with its exports |
| Emitter.WritePackage | gulpfile.js:1070-1238 | an alias writes nothing; otherwise writing fails iff the text cannot be built, and the file is `release/npm/sugar/<path>/<name>.js` holding that text |
| Emitter.EmitPackage | gulpfile.js:1070-1238 | the method's result equals `WritePackage` |
| Driver.CommentMapLatest | gulpfile.js:636-641 | every comment's end line is stored and holds the last comment ending on that line |
| Driver.BundleLinesExact | gulpfile.js:1023-1035 | a bundle line is present iff some method of the module requires that path |
| Driver.BundleWritable | gulpfile.js:1023-1035 | a module bundle always writes `release/npm/sugar/<module>.js` |
| Driver.ParsedOutput | gulpfile.js:1037-1053 | parsing a module succeeds iff its file exists and its statements process; a missing file is reported; a bundled module writes exactly its bundle and any other module writes nothing |
| Driver.ReadComments | gulpfile.js:636-660 | feeding the parser's comments to the tracker, then closing the last range, stores exactly the comment table and the tagged ranges |
| Driver.CollectBundleLines | gulpfile.js:1023-1035 | the loop collects exactly `BundleLines` |
| Driver.ParseModule | gulpfile.js:633-1054 | updates the registry to the state `Parsed` computes and returns the files it writes |
| Driver.ParseModules | gulpfile.js:1240-1250 | parses the eleven modules in order on one registry, stops at the first failure, and ends in the registry state and file list `ParsedAll` computes |
| Driver.ParsedAllOutput | gulpfile.js:1240-1250 | after the modules are parsed every module file was present, and the files written are the bundles of the bundled modules, in order |
| Driver.BundledModules | gulpfile.js:1240-1250 | every module but `common` gets a bundle |
| Driver.WrittenFiles | gulpfile.js:462-467 | writing a dictionary succeeds iff every entry can be written; then every non-alias entry's file is written and every file written belongs to one |
| Driver.WrittenFrom | gulpfile.js:462-467 | writing after earlier files only appends to them |
| Driver.WritePackages | gulpfile.js:462-467 | the loop writes the entries in insertion order, as `Written` says |
| Driver.ModularizeWritesBundlesFirst | gulpfile.js:1240-1257 | a successful run needed all eleven files, and its first ten writes are the bundles in parse order |
| Driver.ModularizeWritesEveryPackage | gulpfile.js:1256-1257 | a successful run writes every non-alias unit under its key and every non-alias method under its package name |
| Driver.Run | gulpfile.js:1240-1257 | the run's result equals the specification `Modularize` |
| Files.GetFiles | gulpfile.js:108-131 | the two loops' result equals `FilesOf` (`core` alone for the core build) |
| Files.ExpandKeywords | gulpfile.js:116-122 | the first loop visits only the names present when it starts and appends the packages of each keyword among them |
| Files.AddPackageFiles | gulpfile.js:123-129 | the second loop appends each name's file in order, the glob's locale files for `locales` unless they are skipped |
| Files.GetFilesCoversRequest | gulpfile.js:108-131 | outside `core`, the list starts with core and common, holds the files of each requested name, and holds the files of every package a requested keyword stands for |
| Files.KeywordReadAsFile | gulpfile.js:116-131 | as written, requesting `all` lists `lib/all.js` and requesting `default` lists `lib/default.js` |
| Files.IntendedFileList | gulpfile.js:123-130 | every file of the corrected list comes from some name's files |
| Files.IntendedFilesSkipKeywords | gulpfile.js:116-131 | the corrected list never holds a keyword's file, yet outside `core` it starts with core and common, holds the files of each requested non-keyword name, and holds the files of every package a requested keyword stands for |
| Files.JsNameFrom | gulpfile.js:136 | a module name taken from a path is a word |
| Files.JsNameOfLibFile | gulpfile.js:136 | the name taken from `lib/<name>.js` is `name` |
| Files.GetModules | gulpfile.js:133-149 | the loop's result equals `ModulesOf` |
| Files.ModuleEntriesCount | gulpfile.js:133-149 | each file becomes exactly one module or one locale; the locales are locale files; each module is a name with one of the given files |
| Files.LibFileEntries | gulpfile.js:133-149 | plain library files become `<name>:1:core` modules in order |
| Files.LibFileModule | gulpfile.js:133-149 | a list of library files with no locales becomes exactly those modules |

## Left out

- Sorting.SortByLength: fixes the stable order that ECMAScript 2019 requires
  of `Array.prototype.sort`. Engines older than that (V8 before 7.0, so
  Node before 11) sorted arrays of more than ten elements unstably, and
  there the order of equal-length names is engine-defined. That affects
  the order of requires, assigns and export entries. The model does not
  capture that freedom.
- The parser and the file system. The parser's output (statements,
  comments, locations) and each file's text are inputs; `mkdirp` and the
  writes are represented by the returned list of files. A later write to
  the same path replaces an earlier one on disk; in the list both appear.
- `path.join` is modelled as joining with `/` and skipping empty parts. It
  does not normalise `..` or repeated slashes. `path.relative` is the
  parameter `rel`.
- The glob of `lib/locales/*.js` is the parameter `localeFiles`. The set of
  truthy globals is the parameter `globals`.
- `console.info` logging, and the unused `name` argument of
  `getDependencies`, are left out.
- The state after an error is left out. The model stops at the first
  thrown error and returns it. Files written before the error are not part
  of an error result.
- Sorting in place: `prepareDeps` and `requires.sort()` sort the package's
  own arrays. The model sorts a copy. Each package is written at most once,
  so no output can tell the difference.
- Dictionary keys are taken as plain strings. Keys inherited from
  `Object.prototype` (such as `constructor`) and array holes are not modelled.
- Method and alias names that are not string literals are modelled as a
  TypeError. The script would register them under the name `undefined`.
- `toLowerCase` is modelled for ASCII letters only. Strings are sequences of
  code points, not UTF-16 units.
- `getFallbackGroupName` and its counter are not used by any path the
  script takes, so they are not modelled.
- `getPackages` reads the command-line arguments, so it is not modelled.
  `getFiles` takes the package list as a parameter.
- Operations.AddTopLevel: a name registered twice silently replaces the
  first package, as the code does. It is not reported as an error.
- Operations.BuildWithOneUnassigned: the build function keeps its own
  exports when it fills one variable (and likewise with several); only the
  case with no unassigned variables deletes them. This follows the code.
- Dependencies.CatchParameterNotExcluded: the catch parameter is pushed as a
  node, not a name, so it never hides a name. This follows the code.
- Dependencies.LocalsAreNotScoped: states the rule for a function that is
  a statement of the block. A function nested deeper hides its parameters
  the same way, since every binder in the tree lands in one flat `locals`
  list; that case follows from `DependencyListExact` and is not restated.
- Operations.MemberAssignmentExtends: the new dependencies are appended
  without removing duplicates. This follows the code.

## Findings

| source | as written | input that shows it | evidently intended | confidence | as-written member | corrected member |
|---|---|---|---|---|---|---|
| gulpfile.js:116-131 | the keywords `default` and `all` stay in the name list after their packages are added, so the second loop also adds `lib/default.js` or `lib/all.js` | `getFiles('all', …)` lists `lib/all.js`, which is not a library module; `getModules` then makes it the module `all:1:core` | keywords only stand for their package lists and add no file of their own | medium; not executed | Files.KeywordReadAsFile | Files.IntendedFilesSkipKeywords |
