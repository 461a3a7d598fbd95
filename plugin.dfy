/** The plugin's `Program` visitor in src/index.js: one traversal of a file in
    source order, in which `ImportDeclaration` collects tag names into
    `tagNames` and `TaggedTemplateExpression` replaces matching call sites by
    their compiled literal. */
module Plugin {
  import opened Wrappers
  import opened Ast
  import opened Compiler
  import opened Resolver

  /** `tagNames.some(name => isIdentifier(tag, {name}))`. */
  predicate Matches(tag: Expr, names: seq<string>) {
    tag.Ident? && tag.name in names
  }

  /** The node the `TaggedTemplateExpression` visitor puts in place of a
      tagged template, if any: an error thrown by `compile` is caught and the
      node is kept. */
  function Replacement(tag: Expr, quasis: seq<string>, expressions: seq<Expr>,
                       names: seq<string>, env: Env): Option<Expr>
  {
    if Matches(tag, names) then
      match Compiled(quasis, expressions, env)
      case Success(body) => Some(body)
      case Failure(_) => None
    else None
  }

  // ---------------------------------------------------------------------------
  // The traversal of code, with `names` the tag names collected so far

  function Rewrite(e: Expr, names: seq<string>, env: Env): Expr
    decreases e
  {
    match e
    case TaggedTemplate(tag, quasis, expressions) =>
      (match Replacement(tag, quasis, expressions, names, env)
       case Some(body) => body
       case None => TaggedTemplate(Rewrite(tag, names, env), quasis, RewriteAll(expressions, names, env)))
    case Member(obj, prop, computed) => Member(Rewrite(obj, names, env), Rewrite(prop, names, env), computed)
    case Call(callee, args) => Call(Rewrite(callee, names, env), RewriteAll(args, names, env))
    case ObjectLit(properties) => ObjectLit(RewriteProperties(properties, names, env))
    case ArrayLit(elements) => ArrayLit(RewriteAll(elements, names, env))
    case Other(children) => Other(RewriteAll(children, names, env))
    case Ident(_) => e
    case StringLit(_) => e
  }

  function RewriteAll(es: seq<Expr>, names: seq<string>, env: Env): seq<Expr>
    decreases es
  {
    if |es| == 0 then [] else [Rewrite(es[0], names, env)] + RewriteAll(es[1..], names, env)
  }

  function RewriteProperty(p: Property, names: seq<string>, env: Env): Property
    decreases p
  {
    Property(Rewrite(p.key, names, env), Rewrite(p.value, names, env))
  }

  function RewriteProperties(ps: seq<Property>, names: seq<string>, env: Env): seq<Property>
    decreases ps
  {
    if |ps| == 0 then [] else [RewriteProperty(ps[0], names, env)] + RewriteProperties(ps[1..], names, env)
  }

  // ---------------------------------------------------------------------------
  // One file

  /** The program body and the tag names collected so far. */
  datatype State = State(body: seq<Item>, tagNames: seq<string>)

  /** What is left of an import statement in the program body. */
  function KeptItems(decl: ImportDecl): seq<Item> {
    match Narrowed(decl)
    case Some(d) => [ImportItem(d)]
    case None => []
  }

  /** The traversal of a whole file, statement by statement in source order;
      a tagged template only sees the tag names of the imports before it. */
  function Pass(items: seq<Item>, env: Env): State
    decreases |items|
  {
    if |items| == 0 then State([], [])
    else
      var done := Pass(items[..|items| - 1], env);
      match items[|items| - 1]
      case ImportItem(decl) => State(done.body + KeptItems(decl), done.tagNames + Binding(decl))
      case CodeItem(e) => State(done.body + [CodeItem(Rewrite(e, done.tagNames, env))], done.tagNames)
  }

  // ---------------------------------------------------------------------------
  // Properties of the traversal

  /** With no tag names nothing is replaced anywhere in an expression. */
  lemma {:induction false} RewriteWithoutNames(e: Expr, env: Env)
    ensures Rewrite(e, [], env) == e
    decreases e
  {
    match e
    case TaggedTemplate(tag, quasis, expressions) =>
      RewriteWithoutNames(tag, env);
      RewriteAllWithoutNames(expressions, env);
    case Member(obj, prop, computed) =>
      RewriteWithoutNames(obj, env);
      RewriteWithoutNames(prop, env);
    case Call(callee, args) =>
      RewriteWithoutNames(callee, env);
      RewriteAllWithoutNames(args, env);
    case ObjectLit(properties) =>
      RewritePropertiesWithoutNames(properties, env);
    case ArrayLit(elements) =>
      RewriteAllWithoutNames(elements, env);
    case Other(children) =>
      RewriteAllWithoutNames(children, env);
    case Ident(_) =>
    case StringLit(_) =>
  }

  lemma {:induction false} RewriteAllWithoutNames(es: seq<Expr>, env: Env)
    ensures RewriteAll(es, [], env) == es
    decreases es
  {
    if |es| > 0 {
      RewriteWithoutNames(es[0], env);
      RewriteAllWithoutNames(es[1..], env);
    }
  }

  lemma {:induction false} RewritePropertiesWithoutNames(ps: seq<Property>, env: Env)
    ensures RewriteProperties(ps, [], env) == ps
    decreases ps
  {
    if |ps| > 0 {
      RewritePropertyWithoutNames(ps[0], env);
      RewritePropertiesWithoutNames(ps[1..], env);
    }
  }

  lemma {:induction false} RewritePropertyWithoutNames(p: Property, env: Env)
    ensures RewriteProperty(p, [], env) == p
    decreases p
  {
    RewriteWithoutNames(p.key, env);
    RewriteWithoutNames(p.value, env);
  }

  /** Every tagged template the walk would reach in `e` is kept by the
      visitor: its tag does not match `names`, or its compilation fails. */
  predicate Untouched(e: Expr, names: seq<string>, env: Env)
    decreases e
  {
    match e
    case TaggedTemplate(tag, quasis, expressions) =>
      && Replacement(tag, quasis, expressions, names, env).None?
      && Untouched(tag, names, env)
      && forall i :: 0 <= i < |expressions| ==> Untouched(expressions[i], names, env)
    case Member(obj, prop, _) => Untouched(obj, names, env) && Untouched(prop, names, env)
    case Call(callee, args) =>
      Untouched(callee, names, env) && forall i :: 0 <= i < |args| ==> Untouched(args[i], names, env)
    case ObjectLit(properties) => forall i :: 0 <= i < |properties| ==> PropertyUntouched(properties[i], names, env)
    case ArrayLit(elements) => forall i :: 0 <= i < |elements| ==> Untouched(elements[i], names, env)
    case Other(children) => forall i :: 0 <= i < |children| ==> Untouched(children[i], names, env)
    case Ident(_) => true
    case StringLit(_) => true
  }

  predicate PropertyUntouched(p: Property, names: seq<string>, env: Env)
    decreases p
  {
    Untouched(p.key, names, env) && Untouched(p.value, names, env)
  }

  /** The walk treats the children of a node one by one: child i of the
      result is child i rewritten, whatever happens to its siblings. */
  lemma {:induction false} RewriteAllElementwise(es: seq<Expr>, names: seq<string>, env: Env)
    ensures |RewriteAll(es, names, env)| == |es|
    ensures forall i :: 0 <= i < |es| ==> RewriteAll(es, names, env)[i] == Rewrite(es[i], names, env)
    decreases |es|
  {
    if |es| > 0 {
      RewriteAllElementwise(es[1..], names, env);
    }
  }

  lemma {:induction false} RewritePropertiesElementwise(ps: seq<Property>, names: seq<string>, env: Env)
    ensures |RewriteProperties(ps, names, env)| == |ps|
    ensures forall i :: 0 <= i < |ps| ==> RewriteProperties(ps, names, env)[i] == RewriteProperty(ps[i], names, env)
    decreases |ps|
  {
    if |ps| > 0 {
      RewritePropertiesElementwise(ps[1..], names, env);
    }
  }

  /** A tagged template that the visitor keeps (no matching tag, or a
      compilation that throws) is left exactly as it was, as is every
      expression in which no site gets replaced. */
  lemma {:induction false} RewriteUntouched(e: Expr, names: seq<string>, env: Env)
    requires Untouched(e, names, env)
    ensures Rewrite(e, names, env) == e
    decreases e
  {
    match e
    case TaggedTemplate(tag, quasis, expressions) =>
      RewriteUntouched(tag, names, env);
      RewriteAllUntouched(expressions, names, env);
    case Member(obj, prop, computed) =>
      RewriteUntouched(obj, names, env);
      RewriteUntouched(prop, names, env);
    case Call(callee, args) =>
      RewriteUntouched(callee, names, env);
      RewriteAllUntouched(args, names, env);
    case ObjectLit(properties) =>
      RewritePropertiesElementwise(properties, names, env);
      forall i | 0 <= i < |properties|
        ensures RewriteProperty(properties[i], names, env) == properties[i]
      {
        RewriteUntouched(properties[i].key, names, env);
        RewriteUntouched(properties[i].value, names, env);
      }
    case ArrayLit(elements) =>
      RewriteAllUntouched(elements, names, env);
    case Other(children) =>
      RewriteAllUntouched(children, names, env);
    case Ident(_) =>
    case StringLit(_) =>
  }

  lemma {:induction false} RewriteAllUntouched(es: seq<Expr>, names: seq<string>, env: Env)
    requires forall i :: 0 <= i < |es| ==> Untouched(es[i], names, env)
    ensures RewriteAll(es, names, env) == es
    decreases es
  {
    RewriteAllElementwise(es, names, env);
    forall i | 0 <= i < |es|
      ensures RewriteAll(es, names, env)[i] == es[i]
    {
      RewriteUntouched(es[i], names, env);
    }
  }

  /** A file with no default import of `graphql-tag` comes out unchanged and
      collects no tag names. */
  lemma {:induction false} FileWithoutTagImportUnchanged(items: seq<Item>, env: Env)
    requires forall i :: 0 <= i < |items| && items[i].ImportItem? ==> Binding(items[i].decl) == []
    ensures Pass(items, env) == State(items, [])
    decreases |items|
  {
    if |items| > 0 {
      var n := |items| - 1;
      FileWithoutTagImportUnchanged(items[..n], env);
      assert items[..n] + [items[n]] == items;
      match items[n]
      case ImportItem(decl) =>
        assert TagSpecifier(decl).None?;
      case CodeItem(e) =>
        RewriteWithoutNames(e, env);
    }
  }

  /** Phase one of the two-phase reading: resolve every import in order. */
  function ResolvePhase(decls: seq<ImportDecl>): State
    decreases |decls|
  {
    if |decls| == 0 then State([], [])
    else
      var done := ResolvePhase(decls[..|decls| - 1]);
      var decl := decls[|decls| - 1];
      State(done.body + KeptItems(decl), done.tagNames + Binding(decl))
  }

  /** Phase two: compile every code statement with the complete tag names. */
  function CompilePhase(code: seq<Expr>, names: seq<string>, env: Env): seq<Item> {
    seq(|code|, i requires 0 <= i < |code| => CodeItem(Rewrite(code[i], names, env)))
  }

  function Imports(decls: seq<ImportDecl>): seq<Item> {
    seq(|decls|, i requires 0 <= i < |decls| => ImportItem(decls[i]))
  }

  function Code(code: seq<Expr>): seq<Item> {
    seq(|code|, i requires 0 <= i < |code| => CodeItem(code[i]))
  }

  lemma {:induction false} PassOfImports(decls: seq<ImportDecl>, env: Env)
    ensures Pass(Imports(decls), env) == ResolvePhase(decls)
    decreases |decls|
  {
    if |decls| > 0 {
      var n := |decls| - 1;
      assert Imports(decls)[..n] == Imports(decls[..n]);
      PassOfImports(decls[..n], env);
    }
  }

  /** Appending a statement extends the traversal by one visitor step. */
  lemma PassSnoc(items: seq<Item>, item: Item, env: Env)
    ensures Pass(items + [item], env) ==
      var done := Pass(items, env);
      match item
      case ImportItem(decl) => State(done.body + KeptItems(decl), done.tagNames + Binding(decl))
      case CodeItem(e) => State(done.body + [CodeItem(Rewrite(e, done.tagNames, env))], done.tagNames)
  {
  }

  /** When every import precedes the code (the usual layout), the single
      source-order traversal equals resolving all imports first and then
      compiling every call site against the complete tag names. */
  lemma {:induction false} ImportsFirstIsTwoPhase(decls: seq<ImportDecl>, code: seq<Expr>, env: Env)
    ensures
      var resolved := ResolvePhase(decls);
      Pass(Imports(decls) + Code(code), env)
        == State(resolved.body + CompilePhase(code, resolved.tagNames, env), resolved.tagNames)
    decreases |code|
  {
    var resolved := ResolvePhase(decls);
    if |code| == 0 {
      assert Imports(decls) + Code(code) == Imports(decls);
      PassOfImports(decls, env);
      assert CompilePhase(code, resolved.tagNames, env) == [];
    } else {
      var n := |code| - 1;
      var prefix := Imports(decls) + Code(code[..n]);
      assert Imports(decls) + Code(code) == prefix + [CodeItem(code[n])];
      ImportsFirstIsTwoPhase(decls, code[..n], env);
      PassSnoc(prefix, CodeItem(code[n]), env);
      assert CompilePhase(code, resolved.tagNames, env)
          == CompilePhase(code[..n], resolved.tagNames, env) + [CodeItem(Rewrite(code[n], resolved.tagNames, env))];
    }
  }

  /** The traversal is one pass in source order: a call site written before
      the first `graphql-tag` default import is not compiled, yet that import
      is still narrowed or removed, and its name is collected too late. */
  lemma {:induction false} LateImportIsMissed(before: seq<Item>, e: Expr, decl: ImportDecl, env: Env)
    requires forall i :: 0 <= i < |before| && before[i].ImportItem? ==> Binding(before[i].decl) == []
    ensures Pass(before + [CodeItem(e), ImportItem(decl)], env)
         == State(before + [CodeItem(e)] + KeptItems(decl), Binding(decl))
  {
    FileWithoutTagImportUnchanged(before, env);
    RewriteWithoutNames(e, env);
    PassSnoc(before, CodeItem(e), env);
    PassSnoc(before + [CodeItem(e)], ImportItem(decl), env);
    assert before + [CodeItem(e)] + [ImportItem(decl)] == before + [CodeItem(e), ImportItem(decl)];
  }

  lemma PassImportThenCode(decl: ImportDecl, e: Expr, env: Env)
    ensures Pass([ImportItem(decl), CodeItem(e)], env)
         == State(KeptItems(decl) + [CodeItem(Rewrite(e, Binding(decl), env))], Binding(decl))
  {
    assert [] + [ImportItem(decl)] == [ImportItem(decl)];
    PassSnoc([], ImportItem(decl), env);
    assert [] + KeptItems(decl) == KeptItems(decl) && [] + Binding(decl) == Binding(decl);
    assert Pass([ImportItem(decl)], env) == State(KeptItems(decl), Binding(decl));
    PassSnoc([ImportItem(decl)], CodeItem(e), env);
    assert [ImportItem(decl)] + [CodeItem(e)] == [ImportItem(decl), CodeItem(e)];
  }

  /** A site whose compilation throws is kept, but the import that bound its
      tag has already lost its only default specifier: the kept site names a
      binding that no longer exists in the file. */
  lemma {:induction false} FailedSiteLosesBinding(decl: ImportDecl, quasis: seq<string>, expressions: seq<Expr>, env: Env)
    requires decl.source == TagModule
    requires exists j :: 0 <= j < |decl.specifiers| && IsDefault(decl.specifiers[j])
    requires forall i, j :: 0 <= i < j < |decl.specifiers| ==> !(IsDefault(decl.specifiers[i]) && IsDefault(decl.specifiers[j]))
    requires Compiled(quasis, expressions, env).Failure?
    requires forall i :: 0 <= i < |expressions| ==> Untouched(expressions[i], Binding(decl), env)
    ensures
      var site := TaggedTemplate(Ident(Binding(decl)[0]), quasis, expressions);
      Pass([ImportItem(decl), CodeItem(site)], env) == State(KeptItems(decl) + [CodeItem(site)], Binding(decl))
    ensures forall item :: item in KeptItems(decl) ==>
      forall j :: 0 <= j < |item.decl.specifiers| ==> !IsDefault(item.decl.specifiers[j])
  {
    var names := Binding(decl);
    var site := TaggedTemplate(Ident(names[0]), quasis, expressions);
    assert Untouched(site, names, env);
    RewriteUntouched(site, names, env);
    PassImportThenCode(decl, site, env);
    if Narrowed(decl).Some? {
      NarrowedDropsTheDefault(decl);
    }
  }

  class ProgramPass {
    var body: seq<Item>
    var tagNames: seq<string>
    const env: Env

    constructor (body: seq<Item>, env: Env)
      ensures this.body == body && tagNames == []
      ensures this.env.parser == env.parser && this.env.serializer == env.serializer
    {
      this.body := body;
      this.tagNames := [];
      this.env := env;
    }

    /** The `ImportDeclaration` visitor. */
    method ImportDeclaration(decl: ImportDecl) returns (kept: Option<ImportDecl>)
      modifies this`tagNames
      ensures tagNames == old(tagNames) + Binding(decl)
      ensures kept == Narrowed(decl)
    {
      kept := Some(decl);
      if decl.source == TagModule {
        var defaultSpecifier := FindIndex(decl.specifiers, IsDefault);
        if defaultSpecifier.Some? {
          var k := defaultSpecifier.value;
          tagNames := tagNames + [decl.specifiers[k].local];
          if |decl.specifiers| == 1 {
            kept := None;
          } else {
            kept := Some(decl.(specifiers := decl.specifiers[..k] + decl.specifiers[k + 1..]));
          }
        }
      }
    }

    /** The `TaggedTemplateExpression` visitor: a tagged template is replaced
        exactly when its tag is an identifier named in `tagNames` and `compile`
        succeeds, and then by what `compile` returned. */
    method TaggedTemplateExpression(tag: Expr, quasis: seq<string>, expressions: seq<Expr>)
      returns (replacement: Option<Expr>)
      ensures replacement.Some? <==>
        tag.Ident? && tag.name in tagNames && Compiled(quasis, expressions, env).Success?
      ensures replacement.Some? ==> replacement.value == Compiled(quasis, expressions, env).value
    {
      replacement := None;
      if tag.Ident? && tag.name in tagNames {
        var compiled := Compile(quasis, expressions, env);
        if compiled.Success? {
          replacement := Some(compiled.value);
        }
      }
    }

    /** The host's walk over one expression, calling the visitor at every
        tagged template it meets. */
    method Walk(e: Expr) returns (out: Expr)
      ensures out == Rewrite(e, tagNames, env)
      ensures Untouched(e, tagNames, env) ==> out == e
      decreases e
    {
      if Untouched(e, tagNames, env) {
        RewriteUntouched(e, tagNames, env);
      }
      match e
      case TaggedTemplate(tag, quasis, expressions) =>
        var replacement := TaggedTemplateExpression(tag, quasis, expressions);
        if replacement.Some? {
          out := replacement.value;
        } else {
          var tag' := Walk(tag);
          var expressions' := WalkAll(expressions);
          out := TaggedTemplate(tag', quasis, expressions');
        }
      case Member(obj, prop, computed) =>
        var obj' := Walk(obj);
        var prop' := Walk(prop);
        out := Member(obj', prop', computed);
      case Call(callee, args) =>
        var callee' := Walk(callee);
        var args' := WalkAll(args);
        out := Call(callee', args');
      case ObjectLit(properties) =>
        var properties' := WalkProperties(properties);
        out := ObjectLit(properties');
      case ArrayLit(elements) =>
        var elements' := WalkAll(elements);
        out := ArrayLit(elements');
      case Other(children) =>
        var children' := WalkAll(children);
        out := Other(children');
      case Ident(_) =>
        out := e;
      case StringLit(_) =>
        out := e;
    }

    method WalkAll(es: seq<Expr>) returns (out: seq<Expr>)
      ensures out == RewriteAll(es, tagNames, env)
      ensures |out| == |es| && forall i :: 0 <= i < |es| ==> out[i] == Rewrite(es[i], tagNames, env)
      decreases es
    {
      RewriteAllElementwise(es, tagNames, env);
      if |es| == 0 {
        return [];
      }
      var head := Walk(es[0]);
      var tail := WalkAll(es[1..]);
      out := [head] + tail;
    }

    method WalkProperty(p: Property) returns (out: Property)
      ensures out == RewriteProperty(p, tagNames, env)
      decreases p
    {
      var key := Walk(p.key);
      var value := Walk(p.value);
      out := Property(key, value);
    }

    method WalkProperties(ps: seq<Property>) returns (out: seq<Property>)
      ensures out == RewriteProperties(ps, tagNames, env)
      decreases ps
    {
      if |ps| == 0 {
        return [];
      }
      var head := WalkProperty(ps[0]);
      var tail := WalkProperties(ps[1..]);
      out := [head] + tail;
    }

    /** The `Program` visitor: start from no tag names and visit the file's
        statements in order, removing or narrowing imports and replacing
        compiled call sites. */
    method Program()
      modifies this
      ensures State(body, tagNames) == Pass(old(body), env)
    {
      tagNames := [];
      var items := body;
      var out: seq<Item> := [];
      var i := 0;
      while i < |items|
        invariant 0 <= i <= |items|
        invariant State(out, tagNames) == Pass(items[..i], env)
      {
        assert items[..i + 1][..i] == items[..i];
        match items[i] {
          case ImportItem(decl) =>
            var kept := ImportDeclaration(decl);
            if kept.Some? {
              out := out + [ImportItem(kept.value)];
            }
          case CodeItem(e) =>
            var e' := Walk(e);
            out := out + [CodeItem(e')];
        }
        i := i + 1;
      }
      assert items[..i] == items;
      body := out;
    }
  }
}
