/** The query document returned by the `graphql-tag` parser, reduced to what the
    plugin inspects: the ordered top-level definitions and whether each is named. */
module GraphQL {
  import opened Wrappers

  /** A top-level definition (an operation or a fragment); `kind` is kept opaque. */
  datatype Definition = Definition(kind: string, name: Option<string>)

  datatype Document = Document(definitions: seq<Definition>)

  /** The plugin's naming rule: a document with at most one definition may
      leave it anonymous; once there are several definitions, fragments
      included, every one of them must carry a name. Section 2.2 (Document)
      of the GraphQL specification only asks this of operations, so this
      rule is stricter: an anonymous query next to a named fragment fails. */
  predicate NamesOk(doc: Document) {
    |doc.definitions| <= 1 ||
    forall i :: 0 <= i < |doc.definitions| ==> doc.definitions[i].name.Some?
  }

  /** The check in `compile`: when there is more than one definition, walk them
      in order and stop at the first one without a name. */
  method CheckNames(doc: Document) returns (ok: bool)
    ensures ok <==> NamesOk(doc)
    ensures |doc.definitions| <= 1 ==> ok
    ensures !ok ==> exists i :: 0 <= i < |doc.definitions| && doc.definitions[i].name.None?
  {
    var defs := doc.definitions;
    if |defs| > 1 {
      var i := 0;
      while i < |defs|
        invariant 0 <= i <= |defs|
        invariant forall j :: 0 <= j < i ==> defs[j].name.Some?
      {
        if defs[i].name.None? {
          return false;
        }
        i := i + 1;
      }
    }
    return true;
  }
}
