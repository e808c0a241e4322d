/** The instruction-stream tree the parser builds and the compiler walks.

    A stream is a singly linked list of nodes.  Raw assembly nodes are left out. */
module Syntax {
  import opened Machine

  datatype Stream = End | Seq(head: Node, next: Stream)

  datatype Clauses = NoClause | Clause(test: Stream, body: Stream, rest: Clauses)

  /** The formals of a lambda: names, then either the `()` literal that closes a fixed list or
      nothing, in which case the last name takes the remaining arguments. */
  datatype Formals = NoFormal | FixedEnd | Formal(name: string, next: Formals)

  datatype Node =
    | LiteralNode(lit: Lit)
    | Quoted(datum: Stream)
    | Load(name: Stream)
    | BindNode(value: Stream, name: Stream)
    | StoreNode(value: Stream, name: Stream)
    | If(test: Stream, onTrue: Stream, onFalse: Stream)
    | Cond(clauses: Clauses)
    | And(args: Stream)
    | Or(args: Stream)
    | MathNode(op: MathOp, left: Stream, right: Stream)
    | Lambda(formals: Formals, body: Stream)
    | Apply(operator: Stream, args: Stream)
    | LetStar(bindings: Stream, body: Stream)
    | RecordType(def: Stream)

  /** The variable whose procedure a record definition calls. */
  const FACTORY: string := "record-type-factory"

  /** Whether the code of a node leaves a value behind: bind and store do not. */
  predicate Pushes(n: Node) { !n.BindNode? && !n.StoreNode? }

  /** stream_concat. */
  function Concat(a: Stream, b: Stream): Stream {
    match a
    case End => b
    case Seq(n, rest) => Seq(n, Concat(rest, b))
  }
}
