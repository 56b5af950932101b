/**
 * The code generator: a lowering from the syntax tree to instructions.
 *
 * The generic visitor it extends, which routes each node to its visitor
 * method, is not part of this model. `VisitExpression` and
 * `VisitStatement` route the kinds this class overrides to its methods
 * and hand every other kind, and a null node, to a `fallback` parameter
 * that stands for the inherited behaviour.
 */
module Converter {
  import opened Wrappers
  import opened JavaLang
  import opened Instructions
  import opened Ast
  import opened Statements

  // ------------------------------------------------------------ registers

  /** The general-purpose registers r0 to r12, in order. */
  function GeneralRegisterFile(): seq<Register>
  {
    seq(13, i => Register(i))
  }

  /** The register file is r0..r12: thirteen entries, each numbered by its position. */
  lemma GeneralRegistersAscend()
    ensures |GeneralRegisterFile()| == 13
    ensures forall i :: 0 <= i < 13 ==> GeneralRegisterFile()[i].number == i
    ensures forall i, j :: 0 <= i < j < 13 ==> GeneralRegisterFile()[i].number < GeneralRegisterFile()[j].number
  {
  }

  /** The counting loop that fills the register list. */
  method InitialiseGeneralRegisters() returns (regs: seq<Register>)
    ensures |regs| == 13
    ensures forall k :: 0 <= k < |regs| ==> regs[k] == Register(k)
  {
    regs := [];
    var i := 0;
    while i != 13
      invariant 0 <= i <= 13
      invariant |regs| == i
      invariant forall k :: 0 <= k < i ==> regs[k] == Register(k)
    {
      regs := regs + [Register(i)];
      i := i + 1;
    }
  }

  /** `generalRegisters.get(n)`. */
  function General(n: nat): Register
    requires n < 13
  {
    GeneralRegisterFile()[n]
  }

  // ------------------------------------------------------------- literals

  function VisitIntLiterExp(e: Expression): seq<Instruction>
  {
    [ImmediateForm(MOV, General(2), e.intLiter)]
  }

  function VisitBoolLiterExp(e: Expression): seq<Instruction>
  {
    [ImmediateForm(MOV, General(2), if e.boolLiter then 1 else 0)]
  }

  /** The character's numeric value (Character.getNumericValue), not its code. */
  function VisitCharLiterExp(e: Expression): seq<Instruction>
  {
    [ImmediateForm(MOV, General(2), NumericValue(e.charLiter))]
  }

  /** Always the one label msg_0, whatever the string. */
  function VisitStringLiterExp(e: Expression): seq<Instruction>
  {
    [WithDestAndLabel(LDR, General(1), "msg_0"), RegisterForm(PUSH, General(1))]
  }

  /** A single MOV into r2 of `value`, and nothing else. */
  predicate IsMoveIntoR2(code: seq<Instruction>, value: int)
  {
    && |code| == 1
    && code[0].op == MOV
    && code[0].dest == Some(Register(2))
    && code[0].imm == Some(value)
    && code[0].operand2 == None
  }

  lemma LiteralsMoveIntoR2(e: Expression)
    ensures IsMoveIntoR2(VisitIntLiterExp(e), e.intLiter)
    ensures IsMoveIntoR2(VisitBoolLiterExp(e), if e.boolLiter then 1 else 0)
    ensures IsMoveIntoR2(VisitCharLiterExp(e), NumericValue(e.charLiter))
    ensures IsDigit(e.charLiter) ==> IsMoveIntoR2(VisitCharLiterExp(e), e.charLiter as int - '0' as int)
  {
  }

  /** Two string literals lower to the same code: the text is never looked at. */
  lemma StringLiteralsShareOneLabel(e: Expression, f: Expression)
    ensures VisitStringLiterExp(e) == VisitStringLiterExp(f)
    ensures var code := VisitStringLiterExp(e);
            && |code| == 2
            && code[0].op == LDR && code[0].dest == Some(Register(1)) && code[0].target == Some("msg_0")
            && code[1] == RegisterForm(PUSH, Register(1))
  {
  }

  // ---------------------------------------------------------- expressions

  /**
   * The visitor's dispatch on expressions: the kinds this class overrides
   * go to its methods; the other kinds and a null expression go to
   * `fallback`.
   */
  function VisitExpression(o: Option<Expression>, fallback: Option<Expression> -> seq<Instruction>): seq<Instruction>
    decreases o, 2
  {
    match o
    case None => fallback(o)
    case Some(e) =>
      match e.exprType
      case INTLITER => VisitIntLiterExp(e)
      case BOOLLITER => VisitBoolLiterExp(e)
      case CHARLITER => VisitCharLiterExp(e)
      case STRINGLITER => VisitStringLiterExp(e)
      case GT => VisitGreaterExp(e, fallback)
      case GTE => VisitGreaterEqExp(e, fallback)
      case LT => VisitLessExp(e, fallback)
      case LTE => VisitLessEqExp(e, fallback)
      case _ => fallback(o)
  }

  /** The code of the first operand, then the code of the second. */
  function TranslateBinaryExpression(e: Expression, fallback: Option<Expression> -> seq<Instruction>): seq<Instruction>
    decreases e, 0
  {
    VisitExpression(e.expression1, fallback) + VisitExpression(e.expression2, fallback)
  }

  /** CMP r1, r2; MOV r1, #0; MOV r1, #1, the last with no condition code. */
  function CompareTail(): seq<Instruction>
  {
    [OperandForm(CMP, General(1), Reg(General(2))), ImmediateForm(MOV, General(1), 0), ImmediateForm(MOV, General(1), 1)]
  }

  function VisitGreaterExp(e: Expression, fallback: Option<Expression> -> seq<Instruction>): seq<Instruction>
    decreases e, 1
  {
    TranslateBinaryExpression(e, fallback) + CompareTail()
  }

  function VisitGreaterEqExp(e: Expression, fallback: Option<Expression> -> seq<Instruction>): seq<Instruction>
    decreases e, 1
  {
    TranslateBinaryExpression(e, fallback) + CompareTail()
  }

  function VisitLessExp(e: Expression, fallback: Option<Expression> -> seq<Instruction>): seq<Instruction>
    decreases e, 1
  {
    TranslateBinaryExpression(e, fallback) + CompareTail()
  }

  function VisitLessEqExp(e: Expression, fallback: Option<Expression> -> seq<Instruction>): seq<Instruction>
    decreases e, 1
  {
    TranslateBinaryExpression(e, fallback) + CompareTail()
  }

  /**
   * Each relational visitor emits the left operand's code, the right
   * operand's code, then the same three instructions, so the four
   * operators lower identically.
   */
  lemma RelationalLowering(e: Expression, fallback: Option<Expression> -> seq<Instruction>)
    ensures var code := VisitGreaterExp(e, fallback);
            var left := VisitExpression(e.expression1, fallback);
            var right := VisitExpression(e.expression2, fallback);
            && code == left + right + CompareTail()
            && code[..|left|] == left
            && code[|left|..|left| + |right|] == right
            && code[|code| - 3] == OperandForm(CMP, Register(1), Reg(Register(2)))
            && code[|code| - 2] == ImmediateForm(MOV, Register(1), 0)
            && code[|code| - 1] == ImmediateForm(MOV, Register(1), 1)
            && code[|code| - 1].cond == None
    ensures VisitGreaterEqExp(e, fallback) == VisitGreaterExp(e, fallback)
    ensures VisitLessExp(e, fallback) == VisitGreaterExp(e, fallback)
    ensures VisitLessEqExp(e, fallback) == VisitGreaterExp(e, fallback)
  {
    var left := VisitExpression(e.expression1, fallback);
    var right := VisitExpression(e.expression2, fallback);
    assert VisitGreaterExp(e, fallback) == left + right + CompareTail();
  }

  // ----------------------------------------------------------- statements

  /** The dispatch on statements: concatenation and skip are overridden, the rest fall back. */
  function VisitStatement(o: Option<Statement>, fallback: Option<Statement> -> seq<Instruction>): seq<Instruction>
    decreases o, 1
  {
    match o
    case None => fallback(o)
    case Some(s) =>
      match s.statType
      case CONCAT => VisitConcatStatement(s, fallback)
      case SKIP => VisitSkipStatement(s)
      case _ => fallback(o)
  }

  function VisitConcatStatement(s: Statement, fallback: Option<Statement> -> seq<Instruction>): seq<Instruction>
    decreases s, 0
  {
    VisitStatement(s.statement1, fallback) + VisitStatement(s.statement2, fallback)
  }

  function VisitSkipStatement(s: Statement): seq<Instruction>
  {
    []
  }

  /** skip produces nothing, whatever else the node holds. */
  lemma SkipEmitsNothing(s: Statement, fallback: Option<Statement> -> seq<Instruction>)
    requires s.statType == SKIP
    ensures VisitStatement(Some(s), fallback) == []
  {
  }

  /** `s1; s2` is the code of s1 followed by the code of s2. */
  lemma ConcatAppends(s1: Statement, s2: Statement, fallback: Option<Statement> -> seq<Instruction>)
    ensures var code := VisitStatement(Some(WithStatements(CONCAT, s1, s2)), fallback);
            && code == VisitStatement(Some(s1), fallback) + VisitStatement(Some(s2), fallback)
            && |code| == |VisitStatement(Some(s1), fallback)| + |VisitStatement(Some(s2), fallback)|
  {
  }

  /** skip is a unit of concatenation: `skip; s` and `s; skip` lower like s. */
  lemma SkipIsUnitOfConcat(s: Statement, fallback: Option<Statement> -> seq<Instruction>)
    ensures VisitStatement(Some(WithStatements(CONCAT, OfType(SKIP), s)), fallback) == VisitStatement(Some(s), fallback)
    ensures VisitStatement(Some(WithStatements(CONCAT, s, OfType(SKIP))), fallback) == VisitStatement(Some(s), fallback)
  {
    var code := VisitStatement(Some(s), fallback);
    assert VisitStatement(Some(OfType(SKIP)), fallback) == [];
    assert [] + code == code;
    assert code + [] == code;
  }

  // ------------------------------------------------------------ functions

  /** A function's code is its body's; the parameters emit nothing. */
  function VisitFunction(f: Function, fallback: Option<Statement> -> seq<Instruction>): seq<Instruction>
  {
    VisitStatement(Some(f.statement), fallback)
  }

  lemma ParametersEmitNothing(f: Function, params: seq<Param>, fallback: Option<Statement> -> seq<Instruction>)
    ensures VisitFunction(f.(params := params), fallback) == VisitFunction(f, fallback)
    ensures VisitFunction(f, fallback) == VisitStatement(Some(f.statement), fallback)
  {
  }

  /** The code of the functions, one after another in list order. */
  function FunctionsCode(fs: seq<Function>, fallback: Option<Statement> -> seq<Instruction>): seq<Instruction>
  {
    if |fs| == 0 then [] else FunctionsCode(fs[..|fs| - 1], fallback) + VisitFunction(fs[|fs| - 1], fallback)
  }

  /** Read from the front: the first function's code comes first. */
  lemma {:induction false} FunctionsCodeFromFront(f: Function, fs: seq<Function>, fallback: Option<Statement> -> seq<Instruction>)
    ensures FunctionsCode([f] + fs, fallback) == VisitFunction(f, fallback) + FunctionsCode(fs, fallback)
    decreases |fs|
  {
    if |fs| == 0 {
      assert ([f] + fs)[..0] == [];
    } else {
      var last := fs[|fs| - 1];
      assert ([f] + fs)[..|fs|] == [f] + fs[..|fs| - 1];
      FunctionsCodeFromFront(f, fs[..|fs| - 1], fallback);
    }
  }

  /** The code of a list of functions split anywhere is the code of the two parts. */
  lemma {:induction false} FunctionsCodeSplits(fs: seq<Function>, gs: seq<Function>, fallback: Option<Statement> -> seq<Instruction>)
    ensures FunctionsCode(fs + gs, fallback) == FunctionsCode(fs, fallback) + FunctionsCode(gs, fallback)
    decreases |gs|
  {
    if |gs| == 0 {
      assert fs + gs == fs;
    } else {
      assert (fs + gs)[..|fs + gs| - 1] == fs + gs[..|gs| - 1];
      FunctionsCodeSplits(fs, gs[..|gs| - 1], fallback);
    }
  }

  // -------------------------------------------------------------- program

  const Directives: seq<Instruction> := [WithLabel(DATA, ""), WithLabel(TEXT, ""), WithLabel(GLOBAL_MAIN, "")]

  /**
   * The program layout: the data, text and global-main directives, each
   * function's code in order, the `main` label, the body, then the
   * literal-pool directive.
   */
  method VisitProgram(p: Program, fallback: Option<Statement> -> seq<Instruction>) returns (code: seq<Instruction>)
    ensures code == Directives + FunctionsCode(p.functions, fallback) + [WithLabel(DATA, "main")]
                    + VisitStatement(Some(p.statement), fallback) + [WithLabel(LTORG, "")]
    ensures code[..3] == Directives
    ensures code[|code| - 1] == WithLabel(LTORG, "")
  {
    code := [WithLabel(DATA, "")];
    code := code + [WithLabel(TEXT, "")];
    code := code + [WithLabel(GLOBAL_MAIN, "")];
    var i := 0;
    while i < |p.functions|
      invariant 0 <= i <= |p.functions|
      invariant code == Directives + FunctionsCode(p.functions[..i], fallback)
    {
      assert p.functions[..i + 1][..i] == p.functions[..i];
      code := code + VisitFunction(p.functions[i], fallback);
      i := i + 1;
    }
    assert p.functions[..i] == p.functions;
    code := code + [WithLabel(DATA, "main")];
    code := code + VisitStatement(Some(p.statement), fallback);
    code := code + [WithLabel(LTORG, "")];
  }

  /** The literal-pool directive appears once, at the very end, when nothing inside the program emits one. */
  predicate NoPoolDirective(code: seq<Instruction>)
  {
    forall k :: 0 <= k < |code| ==> code[k].op != LTORG
  }

  lemma {:induction false} FunctionsCodeHasNoPool(fs: seq<Function>, fallback: Option<Statement> -> seq<Instruction>)
    requires forall k :: 0 <= k < |fs| ==> NoPoolDirective(VisitFunction(fs[k], fallback))
    ensures NoPoolDirective(FunctionsCode(fs, fallback))
    decreases |fs|
  {
    if |fs| > 0 {
      FunctionsCodeHasNoPool(fs[..|fs| - 1], fallback);
    }
  }

  // ------------------------------------------- getInstructionFromExpression

  /**
   * The outcome of getInstructionFromExpression: a list of instructions,
   * the null it returns for a null expression, or a NullPointerException.
   */
  datatype Lowered = Code(code: seq<Instruction>) | Null | NullPointer

  /** `list.addAll(r)`: appending a null list throws. */
  function Append(acc: Lowered, r: Lowered): Lowered
  {
    match acc
    case Code(c) =>
      (match r
       case Code(d) => Code(c + d)
       case Null => NullPointer
       case NullPointer => NullPointer)
    case _ => acc
  }

  function IndexCount(e: Expression): nat
  {
    if e.arrayElem.Some? then |e.arrayElem.value.indices| else 0
  }

  /**
   * What getInstructionFromExpression returns, given the converter's
   * symbol table (which the converter never assigns, so it is None when
   * the converter runs).
   */
  function LoweringOfOpt(o: Option<Expression>, currentST: Option<map<string, Type>>): Lowered
    decreases o, 0
  {
    match o
    case None => Null
    case Some(e) => LoweringOf(e, currentST)
  }

  function LoweringOf(e: Expression, currentST: Option<map<string, Type>>): Lowered
    decreases e, IndexCount(e) + 1
  {
    match e.exprType
    case INTLITER => Code(VisitIntLiterExp(e))
    case NEG => Code(VisitIntLiterExp(e))
    case ORD => Code(VisitIntLiterExp(e))
    case LEN => Code(VisitIntLiterExp(e))
    case DIVIDE => Code(VisitIntLiterExp(e))
    case MULTIPLY => Code(VisitIntLiterExp(e))
    case MODULO => Code(VisitIntLiterExp(e))
    case PLUS => Code(VisitIntLiterExp(e))
    case MINUS => Code(VisitIntLiterExp(e))
    case BOOLLITER => Code(VisitBoolLiterExp(e))
    case NOT => Code(VisitBoolLiterExp(e))
    case GT => Code(VisitBoolLiterExp(e))
    case GTE => Code(VisitBoolLiterExp(e))
    case LT => Code(VisitBoolLiterExp(e))
    case LTE => Code(VisitBoolLiterExp(e))
    case EQ => Code(VisitBoolLiterExp(e))
    case NEQ => Code(VisitBoolLiterExp(e))
    case AND => Code(VisitBoolLiterExp(e))
    case OR => Code(VisitBoolLiterExp(e))
    case CHARLITER => Code(VisitCharLiterExp(e))
    case CHR => Code(VisitCharLiterExp(e))
    case STRINGLITER => Code(VisitStringLiterExp(e))
    case IDENT =>
      if currentST.None? || e.ident.None? || e.ident.value !in currentST.value then NullPointer
      else
        (match currentST.value[e.ident.value].etype
         case INT => Code(VisitIntLiterExp(e))
         case BOOL => Code(VisitBoolLiterExp(e))
         case CHAR => Code(VisitCharLiterExp(e))
         case STRING => Code(VisitStringLiterExp(e))
         case PAIR => Append(Append(Code([]), LoweringOfOpt(e.expression1, currentST)), LoweringOfOpt(e.expression2, currentST))
         case ARRAY => if e.arrayElem.None? then NullPointer else IndicesLowering(e, IndexCount(e), currentST))
    case ARRAYELEM => if e.arrayElem.None? then NullPointer else IndicesLowering(e, IndexCount(e), currentST)
    case BRACKETS => LoweringOfOpt(e.expression1, currentST)
  }

  /** The code of the first `k` index expressions of `parent`'s array element, appended in order. */
  function IndicesLowering(parent: Expression, k: nat, currentST: Option<map<string, Type>>): Lowered
    requires k <= IndexCount(parent)
    decreases parent, k
  {
    if k == 0 then Code([])
    else Append(IndicesLowering(parent, k - 1, currentST), LoweringOf(parent.arrayElem.value.indices[k - 1], currentST))
  }

  /**
   * getInstructionFromExpression, with the loops over the index
   * expressions and the early exit of an exception.
   */
  method GetInstructionFromExpression(o: Option<Expression>, currentST: Option<map<string, Type>>) returns (r: Lowered)
    ensures r == LoweringOfOpt(o, currentST)
    decreases o, 0
  {
    if o.None? {
      return Null;
    }
    r := Lower(o.value, currentST);
  }

  method Lower(e: Expression, currentST: Option<map<string, Type>>) returns (r: Lowered)
    ensures r == LoweringOf(e, currentST)
    decreases e, 1
  {
    var kind := e.exprType;
    if kind == IDENT {
      if currentST.None? || e.ident.None? || e.ident.value !in currentST.value {
        return NullPointer;
      }
      var etype := currentST.value[e.ident.value].etype;
      if etype == PAIR {
        var first := GetInstructionFromExpression(e.expression1, currentST);
        var second := GetInstructionFromExpression(e.expression2, currentST);
        return Append(Append(Code([]), first), second);
      } else if etype == ARRAY {
        r := LowerIndices(e, currentST);
        return;
      }
    } else if kind == ARRAYELEM {
      r := LowerIndices(e, currentST);
      return;
    } else if kind == BRACKETS {
      r := GetInstructionFromExpression(e.expression1, currentST);
      return;
    }
    r := LoweringOf(e, currentST);
  }

  method LowerIndices(e: Expression, currentST: Option<map<string, Type>>) returns (r: Lowered)
    requires e.exprType == ARRAYELEM || e.exprType == IDENT
    ensures e.exprType == ARRAYELEM ==> r == LoweringOf(e, currentST)
    ensures r == (if e.arrayElem.None? then NullPointer else IndicesLowering(e, IndexCount(e), currentST))
    decreases e, 0
  {
    if e.arrayElem.None? {
      return NullPointer;
    }
    var indices := e.arrayElem.value.indices;
    var acc: seq<Instruction> := [];
    var k := 0;
    while k < |indices|
      invariant 0 <= k <= |indices|
      invariant IndicesLowering(e, k, currentST) == Code(acc)
    {
      var next := Lower(indices[k], currentST);
      if !next.Code? {
        assert IndicesLowering(e, k + 1, currentST) == NullPointer;
        IndicesStayFailed(e, k + 1, |indices|, currentST);
        return NullPointer;
      }
      acc := acc + next.code;
      k := k + 1;
    }
    r := Code(acc);
  }

  /** Once an index has thrown, the later ones cannot undo it. */
  lemma {:induction false} IndicesStayFailed(parent: Expression, k: nat, n: nat, currentST: Option<map<string, Type>>)
    requires k <= n <= IndexCount(parent)
    requires IndicesLowering(parent, k, currentST) == NullPointer
    ensures IndicesLowering(parent, n, currentST) == NullPointer
    decreases n - k
  {
    if k < n {
      IndicesStayFailed(parent, k, n - 1, currentST);
    }
  }

  // Facts about getInstructionFromExpression.

  lemma NullExpressionGivesNull(currentST: Option<map<string, Type>>)
    ensures LoweringOfOpt(None, currentST) == Null
  {
  }

  lemma BracketsAreTransparent(e: Expression, currentST: Option<map<string, Type>>)
    requires e.exprType == BRACKETS
    ensures LoweringOf(e, currentST) == LoweringOfOpt(e.expression1, currentST)
  {
  }

  /** An identifier always throws in the converter as it runs, since its symbol table is never set. */
  lemma IdentifierThrowsWithoutSymbolTable(e: Expression)
    requires e.exprType == IDENT
    ensures LoweringOf(e, None) == NullPointer
  {
  }

  /** Every expression kind ends in one of the switch's returns: the final `return null` is unreachable. */
  lemma NullOnlyFromNullOperand(e: Expression, currentST: Option<map<string, Type>>)
    requires LoweringOf(e, currentST) == Null
    ensures e.exprType == BRACKETS
  {
    if e.exprType != BRACKETS && e.arrayElem.Some? {
      IndicesNeverNull(e, IndexCount(e), currentST);
    }
  }

  lemma {:induction false} IndicesNeverNull(parent: Expression, k: nat, currentST: Option<map<string, Type>>)
    requires k <= IndexCount(parent)
    ensures IndicesLowering(parent, k, currentST) != Null
    decreases k
  {
    if k > 0 {
      IndicesNeverNull(parent, k - 1, currentST);
    }
  }

  /**
   * The results of a list of lowerings joined from the front: the
   * concatenation of their code when all of them produced code, and a
   * NullPointerException as soon as one did not.
   */
  function Flatten(rs: seq<Lowered>): Lowered
  {
    if |rs| == 0 then Code([])
    else if !rs[0].Code? then NullPointer
    else
      match Flatten(rs[1..])
      case Code(rest) => Code(rs[0].code + rest)
      case _ => NullPointer
  }

  lemma {:induction false} FlattenSnoc(rs: seq<Lowered>, r: Lowered)
    ensures Flatten(rs + [r]) == Append(Flatten(rs), r)
    decreases |rs|
  {
    if |rs| == 0 {
      assert [] + [r] == [r];
      assert ([r])[1..] == [];
    } else {
      assert (rs + [r])[1..] == rs[1..] + [r];
      FlattenSnoc(rs[1..], r);
    }
  }

  /** The lowering of each index expression of an array element, in order. */
  function IndexResults(e: Expression, currentST: Option<map<string, Type>>): seq<Lowered>
    requires e.arrayElem.Some?
  {
    var ix := e.arrayElem.value.indices;
    seq(|ix|, i requires 0 <= i < |ix| => LoweringOf(ix[i], currentST))
  }

  lemma {:induction false} IndicesLoweringFlattens(e: Expression, k: nat, currentST: Option<map<string, Type>>)
    requires e.arrayElem.Some? && k <= IndexCount(e)
    ensures IndicesLowering(e, k, currentST) == Flatten(IndexResults(e, currentST)[..k])
  {
    var rs := IndexResults(e, currentST);
    if k == 0 {
    } else {
      IndicesLoweringFlattens(e, k - 1, currentST);
      assert rs[..k] == rs[..k - 1] + [rs[k - 1]];
      FlattenSnoc(rs[..k - 1], rs[k - 1]);
    }
  }

  /**
   * An array element lowers to the code of its index expressions,
   * concatenated in order, and throws if any of them gives null or throws.
   */
  lemma ArrayElemConcatenatesIndices(e: Expression, currentST: Option<map<string, Type>>)
    requires e.exprType == ARRAYELEM && e.arrayElem.Some?
    ensures LoweringOf(e, currentST) == Flatten(IndexResults(e, currentST))
  {
    var rs := IndexResults(e, currentST);
    IndicesLoweringFlattens(e, IndexCount(e), currentST);
    assert rs[..IndexCount(e)] == rs;
  }
}
