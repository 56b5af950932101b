/**
 * The abstract syntax tree classes that the statement record, the
 * right-hand-side builder and the code generator use but whose own
 * definitions are not part of this model. Each is a plain value here,
 * carrying the accessors those components call.
 */
module Ast {
  import opened Wrappers

  /** The kinds of type a declared name can have. */
  datatype EType = INT | BOOL | CHAR | STRING | PAIR | ARRAY

  /** A source-level type; the code generator only asks for its kind. */
  datatype Type = Type(etype: EType)

  /** The kinds of expression the code generator distinguishes. */
  datatype ExprType =
    | INTLITER | NEG | ORD | LEN | DIVIDE | MULTIPLY | MODULO | PLUS | MINUS
    | BOOLLITER | NOT | GT | GTE | LT | LTE | EQ | NEQ | AND | OR
    | CHARLITER | CHR
    | STRINGLITER
    | IDENT
    | ARRAYELEM
    | BRACKETS

  /**
   * An expression node: its kind, the literal payloads (primitive, so
   * always present), the identifier, up to two operands and, for an array
   * element, the indexed array.
   */
  datatype Expression = Expression(
    exprType: ExprType,
    intLiter: int,
    boolLiter: bool,
    charLiter: char,
    ident: Option<string>,
    expression1: Option<Expression>,
    expression2: Option<Expression>,
    arrayElem: Option<ArrayElem>)

  /** `a[i][j]`: the array's name and its index expressions, outermost first. */
  datatype ArrayElem = ArrayElem(ident: string, indices: seq<Expression>)

  /** `fst e` or `snd e`. */
  datatype PairElem = Fst(pair: Expression) | Snd(pair: Expression)

  /** The target of an assignment or a read. */
  datatype AssignLHS = IdentLHS(ident: string) | ArrayElemLHS(elem: ArrayElem) | PairElemLHS(pairElem: PairElem)

  /** The shapes a right-hand side can take. */
  datatype RHSType = EXPR | ARRAY_LITER | NEW_PAIR | PAIR_ELEM | CALL

  /**
   * A right-hand side, keeping the arguments of whichever constructor
   * made it; the ones that constructor does not take are absent.
   */
  datatype AssignRHS = AssignRHS(
    assignType: Option<RHSType>,
    expression1: Option<Expression>,
    expression2: Option<Expression>,
    elements: Option<seq<Expression>>,
    pairElem: Option<PairElem>,
    functionIdent: Option<string>,
    argList: Option<seq<Expression>>)

  function ExprRHS(assignType: Option<RHSType>, expression1: Option<Expression>): AssignRHS
  {
    AssignRHS(assignType, expression1, None, None, None, None, None)
  }

  function ArrayRHS(assignType: Option<RHSType>, elements: Option<seq<Expression>>): AssignRHS
  {
    AssignRHS(assignType, None, None, elements, None, None, None)
  }

  function NewPairRHS(assignType: Option<RHSType>, expression1: Option<Expression>, expression2: Option<Expression>): AssignRHS
  {
    AssignRHS(assignType, expression1, expression2, None, None, None, None)
  }

  function PairElemRHS(assignType: Option<RHSType>, pairElem: Option<PairElem>): AssignRHS
  {
    AssignRHS(assignType, None, None, None, pairElem, None, None)
  }

  function CallRHS(assignType: Option<RHSType>, functionIdent: Option<string>, argList: Option<seq<Expression>>): AssignRHS
  {
    AssignRHS(assignType, None, None, None, None, functionIdent, argList)
  }
}
