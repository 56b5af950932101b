/**
 * The statement record of the syntax tree: a statement kind plus the
 * fields its constructor was given, every other field absent, and its
 * `toString` rendering. Also the function and program nodes the code
 * generator walks.
 */
module Statements {
  import opened Wrappers
  import opened Ast
  import opened JavaLang

  datatype StatType =
    | SKIP | DECLARATION | REASSIGNMENT | READ | FREE | RETURN | EXIT
    | PRINT | PRINTLN | IF | WHILE | BEGIN | CONCAT

  /** The fields are fixed at construction; a getter is the field selector. */
  datatype Statement = Statement(
    statType: StatType,
    lhsType: Option<Type>,
    lhsIdent: Option<string>,
    lhs: Option<AssignLHS>,
    rhs: Option<AssignRHS>,
    expression: Option<Expression>,
    statement1: Option<Statement>,
    statement2: Option<Statement>)

  /** A name for each optional field, so that a contract can say which ones are set. */
  datatype Field = LhsTypeField | LhsIdentField | LhsField | RhsField | ExpressionField | Statement1Field | Statement2Field

  /** The fields of `s` that hold a value. */
  function Populated(s: Statement): set<Field>
  {
    (if s.lhsType.Some? then {LhsTypeField} else {})
    + (if s.lhsIdent.Some? then {LhsIdentField} else {})
    + (if s.lhs.Some? then {LhsField} else {})
    + (if s.rhs.Some? then {RhsField} else {})
    + (if s.expression.Some? then {ExpressionField} else {})
    + (if s.statement1.Some? then {Statement1Field} else {})
    + (if s.statement2.Some? then {Statement2Field} else {})
  }

  // The nine constructors. Each takes the statement kind and the fields of
  // its shape, and leaves every other field absent.

  function OfType(t: StatType): (s: Statement)
    ensures s.statType == t && Populated(s) == {}
  {
    Statement(t, None, None, None, None, None, None, None)
  }

  function WithDeclaration(t: StatType, lhsType: Type, lhsIdent: string, rhs: AssignRHS): (s: Statement)
    ensures s.statType == t && Populated(s) == {LhsTypeField, LhsIdentField, RhsField}
    ensures s.lhsType == Some(lhsType) && s.lhsIdent == Some(lhsIdent) && s.rhs == Some(rhs)
  {
    Statement(t, Some(lhsType), Some(lhsIdent), None, Some(rhs), None, None, None)
  }

  function WithAssignment(t: StatType, lhs: AssignLHS, rhs: AssignRHS): (s: Statement)
    ensures s.statType == t && Populated(s) == {LhsField, RhsField}
    ensures s.lhs == Some(lhs) && s.rhs == Some(rhs)
  {
    Statement(t, None, None, Some(lhs), Some(rhs), None, None, None)
  }

  function WithTarget(t: StatType, lhs: AssignLHS): (s: Statement)
    ensures s.statType == t && Populated(s) == {LhsField}
    ensures s.lhs == Some(lhs)
  {
    Statement(t, None, None, Some(lhs), None, None, None, None)
  }

  function WithExpression(t: StatType, expression: Expression): (s: Statement)
    ensures s.statType == t && Populated(s) == {ExpressionField}
    ensures s.expression == Some(expression)
  {
    Statement(t, None, None, None, None, Some(expression), None, None)
  }

  function WithBranches(t: StatType, expression: Expression, statement1: Statement, statement2: Statement): (s: Statement)
    ensures s.statType == t && Populated(s) == {ExpressionField, Statement1Field, Statement2Field}
    ensures s.expression == Some(expression) && s.statement1 == Some(statement1) && s.statement2 == Some(statement2)
  {
    Statement(t, None, None, None, None, Some(expression), Some(statement1), Some(statement2))
  }

  function WithBody(t: StatType, expression: Expression, statement: Statement): (s: Statement)
    ensures s.statType == t && Populated(s) == {ExpressionField, Statement1Field}
    ensures s.expression == Some(expression) && s.statement1 == Some(statement)
  {
    Statement(t, None, None, None, None, Some(expression), Some(statement), None)
  }

  function WithStatement(t: StatType, statement: Statement): (s: Statement)
    ensures s.statType == t && Populated(s) == {Statement1Field}
    ensures s.statement1 == Some(statement)
  {
    Statement(t, None, None, None, None, None, Some(statement), None)
  }

  function WithStatements(t: StatType, statement1: Statement, statement2: Statement): (s: Statement)
    ensures s.statType == t && Populated(s) == {Statement1Field, Statement2Field}
    ensures s.statement1 == Some(statement1) && s.statement2 == Some(statement2)
  {
    Statement(t, None, None, None, None, None, Some(statement1), Some(statement2))
  }

  /** A function declaration: its name, its parameters and its body. */
  datatype Param = Param(paramType: Type, ident: string)
  datatype Function = Function(ident: string, params: seq<Param>, statement: Statement)

  /** A program: its functions in declaration order, then the main body. */
  datatype Program = Program(functions: seq<Function>, statement: Statement)

  // ---------------------------------------------------------------- toString

  /**
   * The `toString` of the node classes whose definitions are not part of
   * this model, taken as given.
   */
  datatype Printers = Printers(
    showType: Type -> string,
    showLHS: AssignLHS -> string,
    showRHS: AssignRHS -> string,
    showExpr: Expression -> string)

  /** The name of an enum constant, which is how it prints. */
  function StatTypeName(t: StatType): string
  {
    match t
    case SKIP => "SKIP"
    case DECLARATION => "DECLARATION"
    case REASSIGNMENT => "REASSIGNMENT"
    case READ => "READ"
    case FREE => "FREE"
    case RETURN => "RETURN"
    case EXIT => "EXIT"
    case PRINT => "PRINT"
    case PRINTLN => "PRINTLN"
    case IF => "IF"
    case WHILE => "WHILE"
    case BEGIN => "BEGIN"
    case CONCAT => "CONCAT"
  }

  function Header(t: StatType): string
  {
    "Statement{statType=" + StatTypeName(t)
  }

  /** The kinds that print their expression after a single space. */
  predicate IsExpressionKind(t: StatType)
  {
    t == FREE || t == RETURN || t == EXIT || t == PRINT || t == PRINTLN
  }

  /**
   * Statement.toString: the header, then the part that belongs to the
   * statement's kind, then the closing brace. A field that is absent
   * prints as "null".
   */
  function Render(s: Statement, p: Printers): string
    decreases s, 1
  {
    Header(s.statType) + Detail(s, p) + "}"
  }

  /** The part of the rendering that belongs to the statement's kind. */
  function Detail(s: Statement, p: Printers): string
    decreases s, 0
  {
      match s.statType
      case DECLARATION =>
        ", " + ShowOrNull(s.lhsType, p.showType) + " " + ShowOrNull(s.lhsIdent, Id) + " = " + ShowOrNull(s.rhs, p.showRHS)
      case REASSIGNMENT => ", " + ShowOrNull(s.lhs, p.showLHS) + " = " + ShowOrNull(s.rhs, p.showRHS)
      case READ => " " + ShowOrNull(s.lhs, p.showLHS)
      case FREE => " " + ShowOrNull(s.expression, p.showExpr)
      case RETURN => " " + ShowOrNull(s.expression, p.showExpr)
      case EXIT => " " + ShowOrNull(s.expression, p.showExpr)
      case PRINT => " " + ShowOrNull(s.expression, p.showExpr)
      case PRINTLN => " " + ShowOrNull(s.expression, p.showExpr)
      case IF =>
        ", if: " + ShowOrNull(s.expression, p.showExpr)
        + ", then: " + RenderOrNull(s.statement1, p) + ", else: " + RenderOrNull(s.statement2, p)
      case WHILE => ", while: " + ShowOrNull(s.expression, p.showExpr) + ", do: " + RenderOrNull(s.statement1, p)
      case BEGIN => ", begin " + RenderOrNull(s.statement1, p) + " end"
      case CONCAT => ", " + RenderOrNull(s.statement1, p) + ", " + RenderOrNull(s.statement2, p)
      case SKIP => ""
  }

  function Id(s: string): string { s }

  /** What can follow the kind's name: the start of a detail, or the closing brace. */
  predicate IsSeparator(c: char)
  {
    c == ',' || c == ' ' || c == '}'
  }

  /** String.valueOf of a statement reference that may be null. */
  function RenderOrNull(o: Option<Statement>, p: Printers): string
    decreases o, 2
  {
    match o
    case None => "null"
    case Some(s) => Render(s, p)
  }

  // ------------------------------------------------------ rendering facts

  /** The statement kind a name prints as, the inverse of StatTypeName. */
  function StatTypeNamed(name: string): (t: Option<StatType>)
    ensures t.Some? ==> StatTypeName(t.value) == name
  {
    if name == "SKIP" then Some(SKIP)
    else if name == "DECLARATION" then Some(DECLARATION)
    else if name == "REASSIGNMENT" then Some(REASSIGNMENT)
    else if name == "READ" then Some(READ)
    else if name == "FREE" then Some(FREE)
    else if name == "RETURN" then Some(RETURN)
    else if name == "EXIT" then Some(EXIT)
    else if name == "PRINT" then Some(PRINT)
    else if name == "PRINTLN" then Some(PRINTLN)
    else if name == "IF" then Some(IF)
    else if name == "WHILE" then Some(WHILE)
    else if name == "BEGIN" then Some(BEGIN)
    else if name == "CONCAT" then Some(CONCAT)
    else None
  }

  lemma StatTypeNamedInverts(t: StatType)
    ensures StatTypeNamed(StatTypeName(t)) == Some(t)
  {
  }

  predicate IsNameChar(c: char)
  {
    'A' <= c <= 'Z' || c == '_'
  }

  lemma StatTypeNameIsWord(t: StatType)
    ensures forall i :: 0 <= i < |StatTypeName(t)| ==> IsNameChar(StatTypeName(t)[i])
  {
  }

  /**
   * Every rendering opens with "Statement{statType=" and the kind's name,
   * follows the name with a comma, a space or the closing brace, and ends
   * with the closing brace.
   */
  lemma RenderFrame(s: Statement, p: Printers)
    ensures var text := Render(s, p);
            && |Header(s.statType)| < |text|
            && text[..|Header(s.statType)|] == Header(s.statType)
            && IsSeparator(text[|Header(s.statType)|])
            && text[|text| - 1] == '}'
  {
    var h, d := Header(s.statType), Detail(s, p);
    assert Render(s, p) == h + (d + "}");
    assert IsSeparator((d + "}")[0]);
  }

  lemma IndexIntoConcat(u: string, v: string, i: int)
    ensures 0 <= i < |u| ==> (u + v)[i] == u[i]
  {
  }

  /**
   * Two words followed by a non-word character that spell the same text
   * are the same word.
   */
  lemma WordBoundary(a: string, x: string, b: string, y: string)
    requires forall i :: 0 <= i < |a| ==> IsNameChar(a[i])
    requires forall i :: 0 <= i < |b| ==> IsNameChar(b[i])
    requires 0 < |x| && 0 < |y| && !IsNameChar(x[0]) && !IsNameChar(y[0])
    requires a + x == b + y
    ensures a == b
  {
    if |a| < |b| {
      IndexIntoConcat(b, y, |a|);
      assert false;
    } else if |b| < |a| {
      IndexIntoConcat(a, x, |b|);
      assert false;
    }
    assert a == (a + x)[..|a|] == (b + y)[..|b|] == b;
  }

  /**
   * The rendering gives the statement kind away: two statements that
   * print the same, under any printers, are of the same kind. (No kind's
   * name runs on into another's: PRINT is followed by a space, never by
   * the "LN" of PRINTLN.)
   */
  lemma RenderRevealsStatType(s1: Statement, p1: Printers, s2: Statement, p2: Printers)
    requires Render(s1, p1) == Render(s2, p2)
    ensures s1.statType == s2.statType
  {
    RenderFrame(s1, p1);
    RenderFrame(s2, p2);
    HeaderNameUnique(s1.statType, s2.statType, Render(s1, p1));
  }

  /** A text can begin with the header of at most one kind followed by a separator. */
  lemma HeaderNameUnique(t1: StatType, t2: StatType, text: string)
    requires |Header(t1)| < |text| && text[..|Header(t1)|] == Header(t1) && IsSeparator(text[|Header(t1)|])
    requires |Header(t2)| < |text| && text[..|Header(t2)|] == Header(t2) && IsSeparator(text[|Header(t2)|])
    ensures t1 == t2
  {
    var k := |"Statement{statType="|;
    HeaderThenName(t1, text);
    HeaderThenName(t2, text);
    var x, y := text[|Header(t1)|..], text[|Header(t2)|..];
    assert x[0] == text[|Header(t1)|] && y[0] == text[|Header(t2)|];
    StatTypeNameIsWord(t1);
    StatTypeNameIsWord(t2);
    WordBoundary(StatTypeName(t1), x, StatTypeName(t2), y);
    StatTypeNamedInverts(t1);
    StatTypeNamedInverts(t2);
  }

  /** After the fixed prefix, a text that starts with a header continues with the kind's name. */
  lemma HeaderThenName(t: StatType, text: string)
    requires |Header(t)| < |text| && text[..|Header(t)|] == Header(t)
    ensures text[|"Statement{statType="|..] == StatTypeName(t) + text[|Header(t)|..]
  {
    var k := |"Statement{statType="|;
    assert |Header(t)| == k + |StatTypeName(t)|;
    assert text[k..|Header(t)|] == StatTypeName(t);
    assert text[k..] == text[k..|Header(t)|] + text[|Header(t)|..];
  }

  /** The fields whose values the rendering of a kind shows. */
  function ShownFields(t: StatType): set<Field>
  {
    match t
    case SKIP => {}
    case DECLARATION => {LhsTypeField, LhsIdentField, RhsField}
    case REASSIGNMENT => {LhsField, RhsField}
    case READ => {LhsField}
    case IF => {ExpressionField, Statement1Field, Statement2Field}
    case WHILE => {ExpressionField, Statement1Field}
    case BEGIN => {Statement1Field}
    case CONCAT => {Statement1Field, Statement2Field}
    case _ => {ExpressionField}
  }

  /** `s` and `u` hold the same value in each of the fields `fs`. */
  predicate AgreeOn(s: Statement, u: Statement, fs: set<Field>)
  {
    && (LhsTypeField in fs ==> s.lhsType == u.lhsType)
    && (LhsIdentField in fs ==> s.lhsIdent == u.lhsIdent)
    && (LhsField in fs ==> s.lhs == u.lhs)
    && (RhsField in fs ==> s.rhs == u.rhs)
    && (ExpressionField in fs ==> s.expression == u.expression)
    && (Statement1Field in fs ==> s.statement1 == u.statement1)
    && (Statement2Field in fs ==> s.statement2 == u.statement2)
  }

  /**
   * The rendering reads only the fields its kind shows: in particular a
   * WHILE statement's second statement and any field a kind does not
   * print make no difference to the text.
   */
  lemma RenderReadsShownFields(s: Statement, u: Statement, p: Printers)
    requires s.statType == u.statType && AgreeOn(s, u, ShownFields(s.statType))
    ensures Render(s, p) == Render(u, p)
  {
  }

  /** WHILE prints its condition and body only. */
  lemma WhileIgnoresSecondStatement(s: Statement, other: Option<Statement>, p: Printers)
    requires s.statType == WHILE
    ensures Render(s.(statement2 := other), p) == Render(s, p)
  {
    RenderReadsShownFields(s, s.(statement2 := other), p);
  }

  lemma RenderSkip(p: Printers)
    ensures Render(OfType(SKIP), p) == "Statement{statType=SKIP}"
  {
  }

  lemma RenderDeclaration(lhsType: Type, lhsIdent: string, rhs: AssignRHS, p: Printers)
    ensures Render(WithDeclaration(DECLARATION, lhsType, lhsIdent, rhs), p)
         == Header(DECLARATION) + (", " + p.showType(lhsType) + " " + lhsIdent + " = " + p.showRHS(rhs)) + "}"
  {
  }

  lemma RenderReassignment(lhs: AssignLHS, rhs: AssignRHS, p: Printers)
    ensures Render(WithAssignment(REASSIGNMENT, lhs, rhs), p)
         == Header(REASSIGNMENT) + (", " + p.showLHS(lhs) + " = " + p.showRHS(rhs)) + "}"
  {
  }

  /** READ is the one kind with a target that prints it after a space, with no comma. */
  lemma RenderRead(lhs: AssignLHS, p: Printers)
    ensures Render(WithTarget(READ, lhs), p) == Header(READ) + (" " + p.showLHS(lhs)) + "}"
  {
  }

  lemma RenderExpressionKind(t: StatType, e: Expression, p: Printers)
    requires IsExpressionKind(t)
    ensures Render(WithExpression(t, e), p) == Header(t) + (" " + p.showExpr(e)) + "}"
  {
  }

  lemma RenderIf(e: Expression, s1: Statement, s2: Statement, p: Printers)
    ensures Render(WithBranches(IF, e, s1, s2), p)
         == Header(IF) + (", if: " + p.showExpr(e) + ", then: " + Render(s1, p) + ", else: " + Render(s2, p)) + "}"
  {
    assert RenderOrNull(Some(s1), p) == Render(s1, p);
    assert RenderOrNull(Some(s2), p) == Render(s2, p);
  }

  lemma RenderWhile(e: Expression, body: Statement, p: Printers)
    ensures Render(WithBody(WHILE, e, body), p)
         == Header(WHILE) + (", while: " + p.showExpr(e) + ", do: " + Render(body, p)) + "}"
  {
    assert RenderOrNull(Some(body), p) == Render(body, p);
  }

  lemma RenderBegin(body: Statement, p: Printers)
    ensures Render(WithStatement(BEGIN, body), p) == Header(BEGIN) + (", begin " + Render(body, p) + " end") + "}"
  {
    assert RenderOrNull(Some(body), p) == Render(body, p);
  }

  lemma RenderConcat(s1: Statement, s2: Statement, p: Printers)
    ensures Render(WithStatements(CONCAT, s1, s2), p) == Header(CONCAT) + (", " + Render(s1, p) + ", " + Render(s2, p)) + "}"
  {
    assert RenderOrNull(Some(s1), p) == Render(s1, p);
    assert RenderOrNull(Some(s2), p) == Render(s2, p);
  }
}
