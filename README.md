# babel-plugin-graphql-tag, modelled in Dafny

The plugin is a Babel transform. In one file it finds the default import of
`graphql-tag`, remembers the local name it binds (usually `gql`) and removes
that binding from the import. It then replaces every `` gql`...` `` tagged
template by the literal syntax tree of the parsed GraphQL document, so that no
parsing happens at run time. When the template interpolates other documents
(`` gql`${frag} query Q { ...F }` ``), the literal's `definitions` array is
wrapped in `definitions.concat(frag.definitions, ...)`.

This project models that transform:

- `wrappers.dfy` (`Wrappers`): `Option`, `Result` and `FindIndex`, the first index passing a test. `FindIndex` stands for `Array.prototype.find` and for the `forEach` that throws at the first bad element.
- `ast.dfy` (`Ast`): the Babel nodes the plugin reads or builds, as values. These are identifiers, member expressions, calls, tagged templates, object and array literals and string literals. `Other` stands for every other expression kind. The module also has import declarations and their specifiers, and the statements of a file.
- `graphql.dfy` (`GraphQL`): the parsed document, reduced to its ordered definitions and their optional names. It has the plugin's naming rule as a predicate, and the loop in `compile` that checks it.
- `compiler.dfy` (`Compiler`): `compile`. `Compiled` is its specification and `Compile` its step-by-step implementation. The lemmas state the error cases and the shape of the result.
- `resolver.dfy` (`Resolver`): the `ImportDeclaration` visitor as functions. It says which name an import binds and what is left of the import.
- `plugin.dfy` (`Plugin`): the `Program` visitor. `ProgramPass` is a class that holds the program body and `tagNames`. Its methods are the two visitors, the walk over expressions and the whole pass. `Pass` and `Rewrite` specify them.

The `graphql-tag` parser and the `babel-literal-to-ast` serializer are foreign
libraries. They appear as parameters: `Env` holds a parser
`string -> Result<Document, string>` and a serializer `Document -> Expr`. Every
property is proved for all parsers and serializers.

Four behaviours of the code differ from what a reader might expect. The model
follows the code:

- The plugin is easily read as two phases: resolve all imports, then compile.
  The code does one traversal in source order, with both visitors registered
  on it (src/index.js:74-113). A call site only sees the imports written before
  it. `ImportsFirstIsTwoPhase` proves that this equals the two-phase reading
  when the imports come first. `LateImportIsMissed` covers a site written
  before the first `graphql-tag` import: the site is not compiled, yet the
  import is still narrowed or removed.
- A site that fails to compile is kept as it was (src/index.js:107-110). But
  the default specifier that bound its tag was already removed from the import
  (src/index.js:85-93). So the kept site names a binding that no longer exists
  in the file. `FailedSiteLosesBinding` proves this. The repository states no
  behaviour for this case to compare against, so it is not listed as a defect.
- The naming check counts every top-level definition, fragments included
  (src/index.js:37). Section 2.2 (Document) of the GraphQL specification, which
  the comment at src/index.js:35-36 cites, only requires names when there are
  several operations. So `query { ...F } fragment F on T { x }` is rejected
  although the GraphQL specification allows it
  (`AnonymousOperationWithFragmentRejected`). `NamesOk` is the code's rule.
- The code does not assume that the serialized body has a `definitions`
  property. When it is missing and the template has interpolations, reading
  `definitionsProperty.value` throws a TypeError. The visitor catches it like
  any other error (src/index.js:48-58, 107). The model keeps this path as the
  error `NoDefinitionsProperty` and does not add a precondition.

## Model

| member | source | states |
|---|---|---|
| Wrappers.FindIndex | src/index.js:77-80 | the index returned is the first element passing the test, and none is returned exactly when no element passes |
| GraphQL.CheckNames | src/index.js:35-43 | the loop accepts exactly the documents with at most one definition or with every definition named, and always accepts one with at most one definition |
| Compiler.JoinQuasisAppend | src/index.js:19-21 | joining the raw quasis maps concatenation of segment lists to concatenation of text |
| Compiler.JoinQuasisAt | src/index.js:19-21 | in the joined text each quasi appears unchanged, after the text of all quasis before it and before the text of all quasis after it |
| Compiler.ReduceQuasisFrom | src/index.js:19-21 | the reduction started from any text is that text followed by the joined quasis |
| Compiler.ConcatDefinitions | src/index.js:54-61 | the emitted call is `arr.concat(...)` with one argument per interpolation, argument i being `expr_i.definitions` |
| Compiler.Merged | src/index.js:47-61 | fails with the TypeError exactly when the body is not an object literal or has no "definitions" property; otherwise only the first "definitions" property changes, its key kept and its value becoming the concat call over the original array; all other properties are unchanged and in place |
| Compiler.Compile | src/index.js:18-67 | the step-by-step `compile` returns or throws exactly what `Compiled` specifies |
| Compiler.RejectedBeforeParsing | src/index.js:25-33 | an interpolation that is neither an identifier nor a member expression makes compilation fail with the index of a rejected interpolation, with the message the plugin throws; the outcome is the same whatever the parser and serializer are |
| Compiler.SyntaxErrorPropagates | src/index.js:33 | a parser error becomes the compilation's error, with its message |
| Compiler.SingleDefinitionPasses | src/index.js:35-37 | a document with at most one definition never fails the name check, named or not, and compiles when there are no interpolations |
| Compiler.SeveralDefinitionsNeedNames | src/index.js:37-43 | with more than one definition, compilation fails with the missing-name error exactly when some definition has no name, whose message is "GraphQL query must have name." |
| Compiler.AnonymousOperationWithFragmentRejected | src/index.js:35-43 | an anonymous operation beside a named fragment fails with the missing-name error: the rule counts definitions, not operations |
| Compiler.NoInterpolationsNoConcat | src/index.js:45-47 | with no interpolations the result is the serializer's output unchanged, with no concat wrapper |
| Compiler.InterpolationsConcatenated | src/index.js:47-61 | with K >= 1 interpolations the "definitions" property becomes `<original>.concat` with exactly K arguments `expr_i.definitions` in source order, and every other property is unchanged |
| Compiler.InterpolationsOnlyMerge | src/index.js:19-47 | interpolations add no text to what is parsed: the result is the compilation of the same quasis without interpolations, followed by the merge |
| Resolver.Binding | src/index.js:76-83 | an import binds a tag name exactly when it is from `graphql-tag` and has a default specifier; the name is the local name of the first default specifier |
| Resolver.Narrowed | src/index.js:82-93 | an import with the tag's default specifier is removed when that was its only specifier; otherwise it loses exactly that specifier and the others keep their order; any other import is kept as it was |
| Resolver.NarrowedRemovesOnlyTag | src/index.js:88-92 | the narrowed specifiers plus the removed default specifier are exactly the original specifiers, as a multiset |
| Resolver.NarrowedDropsTheDefault | src/index.js:88-92 | an import with its single default specifier narrowed keeps no default specifier |
| Resolver.OtherImportsUntouched | src/index.js:76-82 | imports from other modules, and `graphql-tag` imports without a default specifier, are unchanged and bind no name |
| Plugin.ProgramPass.ImportDeclaration | src/index.js:75-96 | the visitor appends the bound name to `tagNames` and returns the import as `Narrowed` gives it |
| Plugin.ProgramPass.TaggedTemplateExpression | src/index.js:97-111 | a tagged template is replaced exactly when its tag is an identifier named in `tagNames` and compilation succeeds, and then by the compiled body; otherwise the node is kept |
| Plugin.ProgramPass.Walk | src/index.js:74-113 | the walk over an expression computes `Rewrite`, and returns the expression unchanged when no site in it is replaced |
| Plugin.ProgramPass.WalkAll | src/index.js:74-113 | the walk over a list of children gives, for each position, that child walked on its own |
| Plugin.ProgramPass.Program | src/index.js:71-114 | starting from empty `tagNames`, the body and tag names after the pass are those of `Pass`, the source-order traversal |
| Plugin.RewriteWithoutNames | src/index.js:97-100 | with no tag names nothing in an expression is replaced |
| Plugin.RewriteAllElementwise | src/index.js:101-110 | child i of a rewritten node is child i rewritten on its own, so a failing site never changes what happens to its siblings |
| Plugin.RewriteUntouched | src/index.js:98-110 | a tagged template whose tag does not match or whose compilation throws, and every expression holding only such sites, is left exactly as it was |
| Plugin.FileWithoutTagImportUnchanged | src/index.js:71-114 | a file without a default import of `graphql-tag` comes out unchanged and collects no tag names |
| Plugin.ImportsFirstIsTwoPhase | src/index.js:74-113 | when all imports precede the code, the pass equals resolving all imports first and then compiling every statement with the complete tag names |
| Plugin.LateImportIsMissed | src/index.js:74-113 | for any statements without a tag binding, any code statement and any import after them, the code statement comes out unchanged while the import is narrowed or removed and its name is collected only after the code |
| Plugin.FailedSiteLosesBinding | src/index.js:82-110 | after a `graphql-tag` import with one default specifier, a site with that tag whose compilation throws is kept unchanged, while the import is removed or keeps no default specifier |

## Left out

- Babel's traversal machinery (paths, `path.get`, `path.remove`, `path.replaceWith`): the program body is a sequence that the pass rebuilds, and nodes are values. Node identity and aliasing are not modelled. The specifier is removed by its position, which matches the source's removal by reference.
- Plugin.Rewrite: Babel re-queues a replaced node and walks its new subtree. The model does not walk a compiled replacement again. The only difference is a tagged template nested inside an interpolation of a compiled site (`` a[gql`...`] ``), which Babel would also compile.
- The internals of `graphql-tag`'s parser and of `babel-literal-to-ast`: both are parameters of every property. A definition keeps only its kind and optional name.
- Cooked quasi values: only the raw text is modelled, since the source reads only `quasi.value.raw`.
- `debug` logging and `console.error` of caught errors: side-channel output.
- `buildCodeFrameError` source positions and message formatting: an invalid interpolation is reported by its index. `Compiler.Message` gives the two messages the plugin writes, and `RejectedBeforeParsing` and `SeveralDefinitionsNeedNames` state them.
- Run-time evaluation of the emitted `concat` call: the plugin only builds it.
- An error thrown by the import visitor itself: the modelled resolver cannot fail.
