/** The `ImportDeclaration` visitor in src/index.js: find the default import of
    `graphql-tag`, remember its local name and drop it from the import. */
module Resolver {
  import opened Wrappers
  import opened Ast

  const TagModule: string := "graphql-tag"

  predicate IsDefault(s: Specifier) {
    s.DefaultSpec?
  }

  /** Position of the specifier the visitor acts on: the first default
      specifier of an import from `graphql-tag`. */
  function TagSpecifier(decl: ImportDecl): Option<nat> {
    if decl.source == TagModule then FindIndex(decl.specifiers, IsDefault) else None
  }

  /** The names the visitor appends to `tagNames` for this import. */
  function Binding(decl: ImportDecl): (names: seq<string>)
    ensures |names| <= 1
    ensures names != [] <==>
      decl.source == TagModule && exists j :: 0 <= j < |decl.specifiers| && IsDefault(decl.specifiers[j])
    ensures names != [] ==>
      exists j :: && 0 <= j < |decl.specifiers|
                  && IsDefault(decl.specifiers[j])
                  && names[0] == decl.specifiers[j].local
                  && forall i :: 0 <= i < j ==> !IsDefault(decl.specifiers[i])
  {
    match TagSpecifier(decl)
    case Some(k) => [decl.specifiers[k].local]
    case None => []
  }

  /** The import after the visitor: `None` when the statement was removed. */
  function Narrowed(decl: ImportDecl): (r: Option<ImportDecl>)
    ensures TagSpecifier(decl).None? ==> r == Some(decl)
    ensures TagSpecifier(decl).Some? ==> (r.None? <==> |decl.specifiers| == 1)
    ensures TagSpecifier(decl).Some? && r.Some? ==>
      var k := TagSpecifier(decl).value;
      var old_ := decl.specifiers;
      var new_ := r.value.specifiers;
      && r.value.source == decl.source
      && |new_| == |old_| - 1
      && (forall j :: 0 <= j < k ==> new_[j] == old_[j])
      && (forall j :: k <= j < |new_| ==> new_[j] == old_[j + 1])
  {
    match TagSpecifier(decl)
    case None => Some(decl)
    case Some(k) =>
      if |decl.specifiers| == 1 then None
      else Some(decl.(specifiers := decl.specifiers[..k] + decl.specifiers[k + 1..]))
  }

  /** Narrowing removes exactly the tag's default specifier: the remaining
      specifiers are the others, each as often as before. */
  lemma NarrowedRemovesOnlyTag(decl: ImportDecl)
    requires TagSpecifier(decl).Some? && Narrowed(decl).Some?
    ensures multiset(Narrowed(decl).value.specifiers) + multiset{decl.specifiers[TagSpecifier(decl).value]}
         == multiset(decl.specifiers)
  {
    var k := TagSpecifier(decl).value;
    var s := decl.specifiers;
    assert s == s[..k] + [s[k]] + s[k + 1..];
  }

  /** An import has at most one default specifier, as JavaScript's grammar
      allows; narrowing it then leaves no default specifier at all. */
  lemma NarrowedDropsTheDefault(decl: ImportDecl)
    requires forall i, j :: 0 <= i < j < |decl.specifiers| ==> !(IsDefault(decl.specifiers[i]) && IsDefault(decl.specifiers[j]))
    requires TagSpecifier(decl).Some? && Narrowed(decl).Some?
    ensures forall j :: 0 <= j < |Narrowed(decl).value.specifiers| ==> !IsDefault(Narrowed(decl).value.specifiers[j])
  {
    var k := TagSpecifier(decl).value;
    var rest := Narrowed(decl).value.specifiers;
    forall j | 0 <= j < |rest| ensures !IsDefault(rest[j]) {
      if j < k {
        assert rest[j] == decl.specifiers[j];
      } else {
        assert rest[j] == decl.specifiers[j + 1];
      }
    }
  }

  /** Imports from other modules, and `graphql-tag` imports without a default
      specifier, are left as they were and bind nothing. */
  lemma OtherImportsUntouched(decl: ImportDecl)
    requires decl.source != TagModule || forall j :: 0 <= j < |decl.specifiers| ==> !IsDefault(decl.specifiers[j])
    ensures Binding(decl) == []
    ensures Narrowed(decl) == Some(decl)
  {
  }
}
