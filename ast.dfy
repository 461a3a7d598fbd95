/** The parts of the host (Babel) syntax tree that the transform reads or builds.
    Nodes are values: the tree is rebuilt where the host would mutate it. */
module Ast {

  /** Expression nodes. `Other` stands for every expression kind the plugin never
      inspects (arrow functions, operators, numbers, ...); its children are still
      walked by the traversal. */
  datatype Expr =
    | Ident(name: string)
    | Member(obj: Expr, prop: Expr, computed: bool)
    | Call(callee: Expr, args: seq<Expr>)
    | TaggedTemplate(tag: Expr, quasis: seq<string>, expressions: seq<Expr>)
    | ObjectLit(properties: seq<Property>)
    | ArrayLit(elements: seq<Expr>)
    | StringLit(value: string)
    | Other(children: seq<Expr>)

  /** An object-literal property `key: value`. */
  datatype Property = Property(key: Expr, value: Expr)

  /** `import d from ...`, `import {imported as local} from ...`, `import * as local from ...`. */
  datatype Specifier =
    | DefaultSpec(local: string)
    | NamedSpec(imported: string, local: string)
    | NamespaceSpec(local: string)

  datatype ImportDecl = ImportDecl(source: string, specifiers: seq<Specifier>)

  /** A top-level statement of one file: an import declaration or any other code. */
  datatype Item = ImportItem(decl: ImportDecl) | CodeItem(expr: Expr)
}
