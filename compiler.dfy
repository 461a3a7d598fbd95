/** `compile` in src/index.js: turn one `gql` template literal into the literal
    syntax tree of its parsed document. */
module Compiler {
  import opened Wrappers
  import opened Ast
  import opened GraphQL

  /** `gql` from graphql-tag: text to document, or the syntax error it throws. */
  type Parser = string -> Result<Document, string>

  /** The default export of babel-literal-to-ast: a data value to the literal
      expression that rebuilds it. */
  type Serializer = Document -> Expr

  /** The two libraries `compile` calls; their internals are not modelled. */
  datatype Env = Env(parser: Parser, serializer: Serializer)

  /** Why `compile` throws. `NoDefinitionsProperty` is the TypeError raised when
      the serialized body has no object property keyed "definitions" and the
      template has interpolations. */
  datatype CompileError =
    | InvalidInterpolation(index: nat)
    | DocumentSyntaxError(message: string)
    | MissingDefinitionName
    | NoDefinitionsProperty

  const InvalidInterpolationMessage: string :=
    "Only identifiers or member expressions are allowed by this plugin as an interpolation in a graphql template literal."
  const MissingNameMessage: string := "GraphQL query must have name."

  /** The message thrown with an error; the TypeError's text comes from the
      JavaScript engine and is not modelled. */
  function Message(error: CompileError): Option<string> {
    match error
    case InvalidInterpolation(_) => Some(InvalidInterpolationMessage)
    case DocumentSyntaxError(message) => Some(message)
    case MissingDefinitionName => Some(MissingNameMessage)
    case NoDefinitionsProperty => None
  }

  // ---------------------------------------------------------------------------
  // Reconstructing the query text

  /** The `reduce` over the quasis: append each raw segment to `head`, from
      left to right. */
  function ReduceQuasis(head: string, quasis: seq<string>): string
    decreases |quasis|
  {
    if |quasis| == 0 then head else ReduceQuasis(head + quasis[0], quasis[1..])
  }

  /** The reconstructed source text: the reduction started from "". */
  function JoinQuasis(quasis: seq<string>): string {
    ReduceQuasis("", quasis)
  }

  /** The starting text of the reduction is only a prefix of its result. */
  lemma {:induction false} ReduceQuasisFrom(head: string, quasis: seq<string>)
    ensures ReduceQuasis(head, quasis) == head + JoinQuasis(quasis)
    decreases |quasis|
  {
    if |quasis| > 0 {
      ReduceQuasisFrom(head + quasis[0], quasis[1..]);
      ReduceQuasisFrom(quasis[0], quasis[1..]);
      assert "" + quasis[0] == quasis[0];
    }
  }

  /** Joining is a homomorphism from sequences of segments to text. */
  lemma {:induction false} JoinQuasisAppend(a: seq<string>, b: seq<string>)
    ensures JoinQuasis(a + b) == JoinQuasis(a) + JoinQuasis(b)
    decreases |a|
  {
    if |a| == 0 {
      assert a + b == b;
    } else {
      assert (a + b)[1..] == a[1..] + b;
      JoinQuasisAppend(a[1..], b);
      ReduceQuasisFrom("" + a[0], a[1..] + b);
      ReduceQuasisFrom("" + a[0], a[1..]);
    }
  }

  /** Every segment sits, unchanged, between the text of the segments before it
      and the text of the segments after it. */
  lemma JoinQuasisAt(quasis: seq<string>, i: nat)
    requires i < |quasis|
    ensures JoinQuasis(quasis) == JoinQuasis(quasis[..i]) + quasis[i] + JoinQuasis(quasis[i + 1..])
  {
    var before, after := quasis[..i], quasis[i + 1..];
    assert quasis == before + ([quasis[i]] + after);
    JoinQuasisAppend(before, [quasis[i]] + after);
    JoinQuasisAppend([quasis[i]], after);
    assert JoinQuasis([quasis[i]]) == quasis[i] by {
      var q := quasis[i];
      assert [q][1..] == [];
      assert ReduceQuasis("", [q]) == ReduceQuasis("" + q, []);
      assert "" + q == q;
    }
  }

  // ---------------------------------------------------------------------------
  // Interpolations

  /** `isIdentifier(expr) || isMemberExpression(expr)`. */
  predicate Interpolable(e: Expr) {
    e.Ident? || e.Member?
  }

  predicate Rejected(e: Expr) {
    !Interpolable(e)
  }

  /** The `forEach` that throws on the first interpolation of another kind. */
  function FirstRejected(expressions: seq<Expr>): Option<nat> {
    FindIndex(expressions, Rejected)
  }

  // ---------------------------------------------------------------------------
  // Merging the interpolated documents into the serialized body

  /** `property.key.value === 'definitions'`: only a string-literal key has a
      `value`, so an identifier key never matches. */
  predicate IsDefinitionsKey(p: Property) {
    p.key == StringLit("definitions")
  }

  /** `memberExpression(expr, identifier('definitions'))`. */
  function DefinitionsOf(e: Expr): Expr {
    Member(e, Ident("definitions"), false)
  }

  /** `v` is the call `arr.concat(e1.definitions, ..., eK.definitions)`. */
  predicate IsConcatOf(v: Expr, arr: Expr, expressions: seq<Expr>) {
    && v.Call?
    && v.callee == Member(arr, Ident("concat"), false)
    && |v.args| == |expressions|
    && forall i :: 0 <= i < |expressions| ==> v.args[i] == DefinitionsOf(expressions[i])
  }

  function ConcatDefinitions(arr: Expr, expressions: seq<Expr>): (v: Expr)
    ensures IsConcatOf(v, arr, expressions)
  {
    Call(Member(arr, Ident("concat"), false),
         seq(|expressions|, i requires 0 <= i < |expressions| => DefinitionsOf(expressions[i])))
  }

  /** Replace the value of the first "definitions" property of the serialized
      body by the concatenation call; everything else stays as serialized. */
  function Merged(body: Expr, expressions: seq<Expr>): (r: Result<Expr, CompileError>)
    ensures r.Failure? <==> !body.ObjectLit? || FindIndex(body.properties, IsDefinitionsKey).None?
    ensures r.Failure? ==> r.error == NoDefinitionsProperty
    ensures r.Success? ==>
      var props := body.properties;
      var k := FindIndex(props, IsDefinitionsKey).value;
      && r.value.ObjectLit?
      && |r.value.properties| == |props|
      && (forall j :: 0 <= j < |props| && j != k ==> r.value.properties[j] == props[j])
      && r.value.properties[k].key == props[k].key
      && IsConcatOf(r.value.properties[k].value, props[k].value, expressions)
  {
    match body
    case ObjectLit(props) =>
      (match FindIndex(props, IsDefinitionsKey)
       case Some(k) =>
         Success(ObjectLit(props[k := props[k].(value := ConcatDefinitions(props[k].value, expressions))]))
       case None => Failure(NoDefinitionsProperty))
    case _ => Failure(NoDefinitionsProperty)
  }

  // ---------------------------------------------------------------------------
  // The whole of `compile`

  /** What `compile` returns or throws for a template with the given quasis and
      interpolations. */
  function Compiled(quasis: seq<string>, expressions: seq<Expr>, env: Env): Result<Expr, CompileError> {
    match FirstRejected(expressions)
    case Some(i) => Failure(InvalidInterpolation(i))
    case None =>
      match env.parser(JoinQuasis(quasis))
      case Failure(message) => Failure(DocumentSyntaxError(message))
      case Success(doc) =>
        if !NamesOk(doc) then Failure(MissingDefinitionName)
        else if |expressions| == 0 then Success(env.serializer(doc))
        else Merged(env.serializer(doc), expressions)
  }

  /** `compile`, step by step: join, validate, parse, check names, serialize,
      and patch the "definitions" property when there are interpolations. */
  method Compile(quasis: seq<string>, expressions: seq<Expr>, env: Env) returns (r: Result<Expr, CompileError>)
    ensures r == Compiled(quasis, expressions, env)
  {
    var source := JoinQuasis(quasis);
    var rejected := FirstRejected(expressions);
    if rejected.Some? {
      return Failure(InvalidInterpolation(rejected.value));
    }
    var parsed := env.parser(source);
    if parsed.Failure? {
      return Failure(DocumentSyntaxError(parsed.error));
    }
    var queryDocument := parsed.value;
    var named := CheckNames(queryDocument);
    if !named {
      return Failure(MissingDefinitionName);
    }
    var body := env.serializer(queryDocument);
    if |expressions| > 0 {
      if !body.ObjectLit? {
        return Failure(NoDefinitionsProperty);
      }
      var found := FindIndex(body.properties, IsDefinitionsKey);
      if found.None? {
        return Failure(NoDefinitionsProperty);
      }
      var definitionsProperty := body.properties[found.value];
      var definitionsArray := definitionsProperty.value;
      body := body.(properties := body.properties[found.value :=
        definitionsProperty.(value := ConcatDefinitions(definitionsArray, expressions))]);
    }
    return Success(body);
  }

  // ---------------------------------------------------------------------------
  // Properties of `compile`

  /** An interpolation that is neither an identifier nor a member expression
      fails the compilation whatever the parser would have said: the parser
      is never consulted. */
  lemma RejectedBeforeParsing(quasis: seq<string>, expressions: seq<Expr>, env1: Env, env2: Env)
    requires exists i :: 0 <= i < |expressions| && Rejected(expressions[i])
    ensures Compiled(quasis, expressions, env1) == Compiled(quasis, expressions, env2)
    ensures Compiled(quasis, expressions, env1).Failure?
    ensures Compiled(quasis, expressions, env1).error.InvalidInterpolation?
    ensures Rejected(expressions[Compiled(quasis, expressions, env1).error.index])
    ensures Message(Compiled(quasis, expressions, env1).error)
         == Some("Only identifiers or member expressions are allowed by this plugin as an interpolation in a graphql template literal.")
  {
  }

  /** A parser error is passed on unchanged as the compilation's error. */
  lemma SyntaxErrorPropagates(quasis: seq<string>, expressions: seq<Expr>, env: Env, message: string)
    requires FirstRejected(expressions).None?
    requires env.parser(JoinQuasis(quasis)) == Failure(message)
    ensures Compiled(quasis, expressions, env) == Failure(DocumentSyntaxError(message))
  {
  }

  /** With at most one definition the name check never fails, named or not. */
  lemma SingleDefinitionPasses(quasis: seq<string>, expressions: seq<Expr>, env: Env, doc: Document)
    requires FirstRejected(expressions).None?
    requires env.parser(JoinQuasis(quasis)) == Success(doc)
    requires |doc.definitions| <= 1
    ensures Compiled(quasis, expressions, env) != Failure(MissingDefinitionName)
    ensures |expressions| == 0 ==> Compiled(quasis, expressions, env).Success?
  {
  }

  /** With several definitions the compilation fails with the missing-name
      error exactly when some definition has no name. */
  lemma SeveralDefinitionsNeedNames(quasis: seq<string>, expressions: seq<Expr>, env: Env, doc: Document)
    requires FirstRejected(expressions).None?
    requires env.parser(JoinQuasis(quasis)) == Success(doc)
    requires |doc.definitions| > 1
    ensures Compiled(quasis, expressions, env) == Failure(MissingDefinitionName)
        <==> exists i :: 0 <= i < |doc.definitions| && doc.definitions[i].name.None?
    ensures Compiled(quasis, expressions, env).Failure? && Compiled(quasis, expressions, env).error == MissingDefinitionName ==>
      Message(Compiled(quasis, expressions, env).error) == Some("GraphQL query must have name.")
  {
  }

  /** The rule counts fragments too: `query { ...F } fragment F on T { x }`,
      an anonymous operation beside a named fragment, is rejected although
      the GraphQL specification admits it. */
  lemma AnonymousOperationWithFragmentRejected(quasis: seq<string>, env: Env)
    requires env.parser(JoinQuasis(quasis)) ==
      Success(Document([Definition("OperationDefinition", None), Definition("FragmentDefinition", Some("F"))]))
    ensures Compiled(quasis, [], env) == Failure(MissingDefinitionName)
  {
    var doc := env.parser(JoinQuasis(quasis)).value;
    assert doc.definitions[0].name.None?;
  }

  /** Without interpolations the serializer's output is returned untouched. */
  lemma NoInterpolationsNoConcat(quasis: seq<string>, env: Env, doc: Document)
    requires env.parser(JoinQuasis(quasis)) == Success(doc)
    requires NamesOk(doc)
    ensures Compiled(quasis, [], env) == Success(env.serializer(doc))
  {
  }

  /** With K >= 1 interpolations, the result is the serialized body whose first
      "definitions" property is rewritten to a `concat` with exactly K arguments,
      `e_i.definitions` in source order; all other properties are unchanged. */
  lemma InterpolationsConcatenated(quasis: seq<string>, expressions: seq<Expr>, env: Env, doc: Document)
    requires |expressions| >= 1 && FirstRejected(expressions).None?
    requires env.parser(JoinQuasis(quasis)) == Success(doc)
    requires NamesOk(doc)
    requires env.serializer(doc).ObjectLit?
    requires FindIndex(env.serializer(doc).properties, IsDefinitionsKey).Some?
    ensures
      var props := env.serializer(doc).properties;
      var k := FindIndex(props, IsDefinitionsKey).value;
      var r := Compiled(quasis, expressions, env);
      && r.Success? && r.value.ObjectLit?
      && |r.value.properties| == |props|
      && (forall j :: 0 <= j < |props| && j != k ==> r.value.properties[j] == props[j])
      && r.value.properties[k].key == StringLit("definitions")
      && r.value.properties[k].value.Call?
      && r.value.properties[k].value.callee == Member(props[k].value, Ident("concat"), false)
      && |r.value.properties[k].value.args| == |expressions|
      && forall i :: 0 <= i < |expressions| ==>
           r.value.properties[k].value.args[i] == Member(expressions[i], Ident("definitions"), false)
  {
  }

  /** Interpolations add no text to what is parsed: a template with valid
      interpolations compiles to what the same quasis compile to without them,
      followed by the merge. */
  lemma InterpolationsOnlyMerge(quasis: seq<string>, expressions: seq<Expr>, env: Env)
    requires |expressions| >= 1 && FirstRejected(expressions).None?
    ensures Compiled(quasis, expressions, env) ==
      match Compiled(quasis, [], env)
      case Success(body) => Merged(body, expressions)
      case Failure(error) => Failure(error)
  {
  }
}
