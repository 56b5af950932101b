/**
 * The runtime-support catalogue: one fixed instruction sequence per routine
 * the generated code can call, chosen by a switch over the routine's name.
 * Each routine is written out as it is built, quirks included: print-int
 * moves r1 into r0 where its siblings move r0 into r1, the second
 * array-bounds message load has no destination register, and free-pair
 * branches to the error routine through a raw label line instead of a BL.
 */
module PredefinedFunctions {
  import opened Wrappers
  import opened Instructions

  const R0: Register := Register(0)
  const R1: Register := Register(1)
  const R2: Register := Register(2)
  const SP: Register := Register(13)

  const THROW: string := "p_throw_runtime_error"

  datatype Functions =
    | PPrintInt | PPrintBool | PPrintString | PPrintReference | PPrintLn
    | PCheckNullPointer
    | PThrowRuntimeError | PThrowOverflowError
    | PCheckDivideByZero
    | PCheckArrayBounds
    | PReadInt | PReadChar
    | PFreePair

  // Instructions shared by several routines.

  function PushLr(): Instruction { WithLabel(LABEL, "PUSH {lr}") }
  function PopPc(): Instruction { WithLabel(LABEL, "POP {pc}") }
  function Call(target: string): Instruction { WithLabel(BL, target) }
  function CallIf(target: string, cond: Condition): Instruction { WithLabelAndCondition(BL, target, cond) }
  function AddR0Four(): Instruction { WithDestSourceAndOperand(ADD, R0, R0, Imm(4)) }
  function ClearR0(): Instruction { OperandForm(MOV, R0, Imm(0)) }

  function PPrintIntInstruction(): seq<Instruction>
  {
    [ PushLr(),
      OperandForm(MOV, R0, Reg(R1)),
      WithDestAndLabel(LDR, R0, "msg_0"),
      AddR0Four(),
      Call("printf"),
      ClearR0(),
      Call("fflush"),
      PopPc() ]
  }

  function PPrintBoolInstruction(): seq<Instruction>
  {
    [ PushLr(),
      OperandForm(CMP, R0, Imm(0)),
      WithDestLabelAndCondition(LDR, R0, "msg_0", NE),
      WithDestLabelAndCondition(LDR, R0, "msg_1", EQ),
      AddR0Four(),
      Call("printf"),
      ClearR0(),
      Call("fflush"),
      PopPc() ]
  }

  function PPrintStringInstruction(): seq<Instruction>
  {
    [ PushLr(),
      OperandForm(LDR, R1, Reg(R0)),
      WithDestSourceAndOperand(ADD, R2, R0, Imm(4)),
      WithDestAndLabel(LDR, R0, "msg_1"),
      AddR0Four(),
      Call("printf"),
      ClearR0(),
      Call("fflush"),
      PopPc() ]
  }

  function PPrintReferenceInstruction(): seq<Instruction>
  {
    [ PushLr(),
      OperandForm(MOV, R1, Reg(R0)),
      WithDestAndLabel(LDR, R0, "msg_0"),
      AddR0Four(),
      Call("printf"),
      ClearR0(),
      Call("fflush"),
      PopPc() ]
  }

  function PPrintLnInstructions(): seq<Instruction>
  {
    [ PushLr(),
      WithDestAndLabel(LDR, R0, "msg_1"),
      AddR0Four(),
      Call("puts"),
      ClearR0(),
      Call("fflush"),
      PopPc() ]
  }

  function PCheckNullPointerInstructions(): seq<Instruction>
  {
    [ PushLr(),
      OperandForm(CMP, R0, Imm(0)),
      WithDestLabelAndCondition(LDR, R0, "msg_0", EQ),
      CallIf(THROW, EQ),
      PopPc() ]
  }

  function PThrowRuntimeErrorInstructions(): seq<Instruction>
  {
    [ Call("p_print_string"),
      OperandForm(MOV, R0, Imm(-1)),
      Call("exit") ]
  }

  function PThrowOverflowErrorInstructions(): seq<Instruction>
  {
    [ WithDestAndLabel(LDR, R0, "msg_0"),
      Call(THROW) ]
  }

  function PCheckDivideByZeroInstructions(): seq<Instruction>
  {
    [ PushLr(),
      OperandForm(CMP, R1, Imm(0)),
      WithDestLabelAndCondition(LDR, R0, "msg_0", EQ),
      CallIf(THROW, EQ),
      PopPc() ]
  }

  function PCheckArrayBoundsInstructions(): seq<Instruction>
  {
    [ PushLr(),
      OperandForm(CMP, R0, Imm(0)),
      WithDestLabelAndCondition(LDR, R0, "msg_0", LT),
      CallIf(THROW, LT),
      OperandForm(LDR, R1, Reg(R1)),
      OperandForm(CMP, R0, Reg(R1)),
      WithLabelAndCondition(LDR, "msg_0", CS),
      CallIf(THROW, CS),
      PopPc() ]
  }

  function PReadIntInstructions(): seq<Instruction>
  {
    [ PushLr(),
      OperandForm(MOV, R1, Reg(R0)),
      WithDestAndLabel(LDR, R0, "msg_0"),
      AddR0Four(),
      Call("scanf"),
      PopPc() ]
  }

  function PReadCharInstructions(): seq<Instruction>
  {
    [ PushLr(),
      OperandForm(MOV, R1, Reg(R0)),
      WithDestAndLabel(LDR, R0, "msg_0"),
      AddR0Four(),
      Call("scanf"),
      PopPc() ]
  }

  function PFreePairInstructions(): seq<Instruction>
  {
    [ PushLr(),
      OperandForm(CMP, R0, Imm(0)),
      WithDestLabelAndCondition(LDR, R0, "msg_0", EQ),
      WithLabel(LABEL, "BEQ p_throw_runtime_error"),
      RegisterForm(PUSH, R0),
      OperandForm(LDR, R0, Reg(R0)),
      Call("free"),
      OperandForm(LDR, R0, Reg(SP)),
      OperandForm(LDR, R0, RegOffset(R0, 4)),
      Call("free"),
      RegisterForm(POP, R0),
      Call("free"),
      PopPc() ]
  }

  // Shape predicates over instruction sequences.

  /** Saves the link register first and returns through the program counter last. */
  predicate Framed(s: seq<Instruction>)
  {
    |s| >= 2 && s[0] == PushLr() && s[|s| - 1] == PopPc()
  }

  predicate IsCallTo(i: Instruction, target: string)
  {
    i.op == BL && i.target == Some(target)
  }

  /** How many BL instructions, conditional or not, go to `target`. */
  function CallCount(s: seq<Instruction>, target: string): nat
  {
    CallCountFrom(s, target, 0)
  }

  function CallCountFrom(s: seq<Instruction>, target: string, i: nat): nat
    requires i <= |s|
    decreases |s| - i
  {
    if i == |s| then 0 else (if IsCallTo(s[i], target) then 1 else 0) + CallCountFrom(s, target, i + 1)
  }

  /** How many times `x` occurs in `s`. */
  function Occurrences(s: seq<Instruction>, x: Instruction): nat
  {
    OccurrencesFrom(s, x, 0)
  }

  function OccurrencesFrom(s: seq<Instruction>, x: Instruction, i: nat): nat
    requires i <= |s|
    decreases |s| - i
  {
    if i == |s| then 0 else (if s[i] == x then 1 else 0) + OccurrencesFrom(s, x, i + 1)
  }

  predicate Throws(f: Functions)
  {
    f == PThrowRuntimeError || f == PThrowOverflowError
  }

  predicate IsPrint(f: Functions)
  {
    f == PPrintInt || f == PPrintBool || f == PPrintString || f == PPrintReference || f == PPrintLn
  }

  /** getFunctionInstructions: the routine a name stands for, one case per enum constant. */
  function GetFunctionInstructions(f: Functions): seq<Instruction>
  {
    match f
    case PPrintInt => PPrintIntInstruction()
    case PPrintBool => PPrintBoolInstruction()
    case PPrintString => PPrintStringInstruction()
    case PPrintReference => PPrintReferenceInstruction()
    case PPrintLn => PPrintLnInstructions()
    case PCheckNullPointer => PCheckNullPointerInstructions()
    case PThrowRuntimeError => PThrowRuntimeErrorInstructions()
    case PThrowOverflowError => PThrowOverflowErrorInstructions()
    case PCheckDivideByZero => PCheckDivideByZeroInstructions()
    case PCheckArrayBounds => PCheckArrayBoundsInstructions()
    case PReadInt => PReadIntInstructions()
    case PReadChar => PReadCharInstructions()
    case PFreePair => PFreePairInstructions()
  }

  /** Every routine but the two error throwers is framed by PUSH {lr} ... POP {pc}. */
  lemma RoutinesAreFramed(f: Functions)
    ensures |GetFunctionInstructions(f)| > 0
    ensures Framed(GetFunctionInstructions(f)) <==> !Throws(f)
  {
    match f
    case PPrintInt => PrintIntFramed();
    case PPrintBool => PrintBoolFramed();
    case PPrintString => PrintStringFramed();
    case PPrintReference => PrintReferenceFramed();
    case PPrintLn => PrintLnFramed();
    case PCheckNullPointer => CheckNullPointerFramed();
    case PThrowRuntimeError => ThrowRuntimeErrorUnframed();
    case PThrowOverflowError => ThrowOverflowErrorUnframed();
    case PCheckDivideByZero => CheckDivideByZeroFramed();
    case PCheckArrayBounds => CheckArrayBoundsFramed();
    case PReadInt => ReadIntFramed();
    case PReadChar => ReadCharFramed();
    case PFreePair => FreePairFramed();
  }

  lemma PrintIntFramed() ensures 0 < |GetFunctionInstructions(PPrintInt)| && Framed(GetFunctionInstructions(PPrintInt)) { }
  lemma PrintBoolFramed() ensures 0 < |GetFunctionInstructions(PPrintBool)| && Framed(GetFunctionInstructions(PPrintBool)) { }
  lemma PrintStringFramed() ensures 0 < |GetFunctionInstructions(PPrintString)| && Framed(GetFunctionInstructions(PPrintString)) { }
  lemma PrintReferenceFramed() ensures 0 < |GetFunctionInstructions(PPrintReference)| && Framed(GetFunctionInstructions(PPrintReference)) { }
  lemma PrintLnFramed() ensures 0 < |GetFunctionInstructions(PPrintLn)| && Framed(GetFunctionInstructions(PPrintLn)) { }
  lemma CheckNullPointerFramed() ensures 0 < |GetFunctionInstructions(PCheckNullPointer)| && Framed(GetFunctionInstructions(PCheckNullPointer)) { }
  lemma ThrowRuntimeErrorUnframed() ensures 0 < |GetFunctionInstructions(PThrowRuntimeError)| && !Framed(GetFunctionInstructions(PThrowRuntimeError)) { }
  lemma ThrowOverflowErrorUnframed() ensures 0 < |GetFunctionInstructions(PThrowOverflowError)| && !Framed(GetFunctionInstructions(PThrowOverflowError)) { }
  lemma CheckDivideByZeroFramed() ensures 0 < |GetFunctionInstructions(PCheckDivideByZero)| && Framed(GetFunctionInstructions(PCheckDivideByZero)) { }
  lemma CheckArrayBoundsFramed() ensures 0 < |GetFunctionInstructions(PCheckArrayBounds)| && Framed(GetFunctionInstructions(PCheckArrayBounds)) { }
  lemma ReadIntFramed() ensures 0 < |GetFunctionInstructions(PReadInt)| && Framed(GetFunctionInstructions(PReadInt)) { }
  lemma ReadCharFramed() ensures 0 < |GetFunctionInstructions(PReadChar)| && Framed(GetFunctionInstructions(PReadChar)) { }
  lemma FreePairFramed() ensures 0 < |GetFunctionInstructions(PFreePair)| && Framed(GetFunctionInstructions(PFreePair)) { }

  /**
   * throw-runtime-error prints the message through p_print_string and ends the
   * process with status -1; it saves nothing on the stack and does not call
   * itself.
   */
  lemma ThrowRuntimeErrorShape()
    ensures var s := GetFunctionInstructions(PThrowRuntimeError);
            && |s| == 3
            && (forall i :: 0 <= i < |s| ==> s[i].op != PUSH && s[i].op != POP && s[i].op != LABEL)
            && s[0] == Call("p_print_string")
            && s[1].op == MOV && s[1].dest == Some(R0) && s[1].operand2 == Some(Imm(-1)) && s[1].cond == None
            && s[2] == Call("exit")
            && CallCount(s, THROW) == 0
  {
  }

  /** throw-overflow-error loads its message into r0 and calls throw-runtime-error unconditionally. */
  lemma ThrowOverflowErrorShape()
    ensures var s := GetFunctionInstructions(PThrowOverflowError);
            && |s| == 2
            && s[0].op == LDR && s[0].dest == Some(R0) && s[0].target == Some("msg_0") && s[0].cond == None
            && s[1] == Call(THROW)
            && CallCount(s, THROW) == 1
  {
  }

  /**
   * check-null-pointer compares r0 with #0, and both of its failure
   * instructions (load the message, call the error routine) run on EQ only.
   */
  lemma NullPointerCheck()
    ensures var s := GetFunctionInstructions(PCheckNullPointer);
            && s[1] == OperandForm(CMP, R0, Imm(0))
            && (forall i :: 1 < i < |s| - 1 ==> s[i].cond == Some(EQ))
            && CallCount(s, THROW) == 1
            && IsCallTo(s[3], THROW)
  {
  }

  /** check-divide-by-zero is check-null-pointer comparing the divisor in r1 instead of r0. */
  lemma DivideByZeroCheck()
    ensures GetFunctionInstructions(PCheckDivideByZero)
            == GetFunctionInstructions(PCheckNullPointer)[1 := OperandForm(CMP, R1, Imm(0))]
    ensures CallCount(GetFunctionInstructions(PCheckDivideByZero), THROW) == 1
  {
  }

  /**
   * check-array-bounds calls the error routine twice: on LT after comparing
   * the index in r0 with #0, and on CS after loading the length through r1
   * and comparing r0 with it.
   */
  lemma ArrayBoundsChecks()
    ensures var s := GetFunctionInstructions(PCheckArrayBounds);
            && CallCount(s, THROW) == 2
            && s[1] == OperandForm(CMP, R0, Imm(0))
            && s[3] == CallIf(THROW, LT)
            && s[4] == OperandForm(LDR, R1, Reg(R1))
            && s[5] == OperandForm(CMP, R0, Reg(R1))
            && s[7] == CallIf(THROW, CS)
            && s[6].op == LDR && s[6].dest == None && s[6].cond == Some(CS)
  {
  }

  /** None of the print routines reaches the error routine. */
  lemma PrintRoutinesNeverThrow(f: Functions)
    requires IsPrint(f)
    ensures CallCount(GetFunctionInstructions(f), THROW) == 0
  {
    match f
    case PPrintInt => PrintIntThrowCount();
    case PPrintBool => PrintBoolThrowCount();
    case PPrintString => PrintStringThrowCount();
    case PPrintReference => PrintReferenceThrowCount();
    case PPrintLn => PrintLnThrowCount();
  }

  lemma PrintIntThrowCount() ensures CallCount(PPrintIntInstruction(), THROW) == 0 { }
  lemma PrintBoolThrowCount() ensures CallCount(PPrintBoolInstruction(), THROW) == 0 { }
  lemma PrintStringThrowCount() ensures CallCount(PPrintStringInstruction(), THROW) == 0 { }
  lemma PrintReferenceThrowCount() ensures CallCount(PPrintReferenceInstruction(), THROW) == 0 { }
  lemma PrintLnThrowCount() ensures CallCount(PPrintLnInstructions(), THROW) == 0 { }

  /** Neither read routine reaches the error routine. */
  lemma ReadRoutinesNeverThrow()
    ensures CallCount(PReadIntInstructions(), THROW) == 0
    ensures CallCount(PReadCharInstructions(), THROW) == 0
  {
    ReadIntThrowCount();
    ReadCharThrowCount();
  }

  lemma ReadIntThrowCount() ensures CallCount(PReadIntInstructions(), THROW) == 0 { }
  lemma ReadCharThrowCount() ensures CallCount(PReadCharInstructions(), THROW) == 0 { }

  /** How many instructions of `s` carry opcode `op`. */
  function OpcodeCount(s: seq<Instruction>, op: Opcode): nat
  {
    OpcodeCountFrom(s, op, 0)
  }

  function OpcodeCountFrom(s: seq<Instruction>, op: Opcode, i: nat): nat
    requires i <= |s|
    decreases |s| - i
  {
    if i == |s| then 0 else (if s[i].op == op then 1 else 0) + OpcodeCountFrom(s, op, i + 1)
  }

  /**
   * free-pair has one PUSH and one POP instruction: it saves r0 with
   * PUSH {r0} before freeing the first element and restores it with
   * POP {r0} before freeing the pair itself.
   */
  lemma FreePairSavesR0Once()
    ensures var s := PFreePairInstructions();
            && OpcodeCount(s, PUSH) == 1 && s[4] == RegisterForm(PUSH, R0)
            && OpcodeCount(s, POP) == 1 && s[10] == RegisterForm(POP, R0)
  {
    FreePairPushCount();
    FreePairPopCount();
  }

  lemma FreePairPushCount()
    ensures OpcodeCount(PFreePairInstructions(), PUSH) == 1
  {
  }

  lemma FreePairPopCount()
    ensures OpcodeCount(PFreePairInstructions(), POP) == 1
  {
  }

  /** free-pair calls free exactly three times (the first element, the second, then the pair) and makes no other call. */
  lemma FreePairCallsFreeThrice()
    ensures var s := PFreePairInstructions();
            && CallCount(s, "free") == 3
            && OpcodeCount(s, BL) == 3
  {
    FreePairFreeCount();
    FreePairBranchLinkCount();
  }

  lemma FreePairFreeCount()
    ensures CallCount(PFreePairInstructions(), "free") == 3
  {
  }

  lemma FreePairBranchLinkCount()
    ensures OpcodeCount(PFreePairInstructions(), BL) == 3
  {
  }

  /**
   * free-pair reaches the error routine only through the raw label line
   * "BEQ p_throw_runtime_error", never through a BL.
   */
  lemma FreePairBranchIsALabel()
    ensures var s := PFreePairInstructions();
            && CallCount(s, THROW) == 0
            && s[3] == WithLabel(LABEL, "BEQ p_throw_runtime_error")
  {
    FreePairThrowCount();
  }

  lemma FreePairThrowCount()
    ensures CallCount(PFreePairInstructions(), THROW) == 0
  {
  }

  /** Exactly the three checks and throw-overflow-error call the error routine through BL. */
  lemma WhoCallsThrow(f: Functions)
    ensures CallCount(GetFunctionInstructions(f), THROW) > 0
            <==> f in {PCheckNullPointer, PCheckArrayBounds, PCheckDivideByZero, PThrowOverflowError}
  {
    match f
    case PPrintInt => PrintRoutinesNeverThrow(f);
    case PPrintBool => PrintRoutinesNeverThrow(f);
    case PPrintString => PrintRoutinesNeverThrow(f);
    case PPrintReference => PrintRoutinesNeverThrow(f);
    case PPrintLn => PrintRoutinesNeverThrow(f);
    case PCheckNullPointer => NullPointerCheck();
    case PThrowRuntimeError => ThrowRuntimeErrorShape();
    case PThrowOverflowError => ThrowOverflowErrorShape();
    case PCheckDivideByZero => DivideByZeroCheck();
    case PCheckArrayBounds => ArrayBoundsChecks();
    case PReadInt => ReadRoutinesNeverThrow();
    case PReadChar => ReadRoutinesNeverThrow();
    case PFreePair => FreePairBranchIsALabel();
  }

  /** The message load before a conditional call to the error routine at index `i`. */
  predicate GuardLoadsMessage(s: seq<Instruction>, f: Functions, i: nat)
    requires 0 < i < |s|
  {
    IsCallTo(s[i], THROW) && s[i].cond.Some? ==>
      && s[i - 1].op == LDR
      && s[i - 1].target == Some("msg_0")
      && s[i - 1].cond == s[i].cond
      && (s[i - 1].dest == Some(R0) <==> !(f == PCheckArrayBounds && s[i].cond == Some(CS)))
  }

  predicate GuardsLoadMessageFrom(s: seq<Instruction>, f: Functions, i: nat)
    requires 0 < i <= |s|
    decreases |s| - i
  {
    i == |s| || (GuardLoadsMessage(s, f, i) && GuardsLoadMessageFrom(s, f, i + 1))
  }

  lemma {:induction false} GuardsLoadMessageFromSound(s: seq<Instruction>, f: Functions, i: nat)
    requires 0 < i <= |s| && GuardsLoadMessageFrom(s, f, i)
    ensures forall j :: i <= j < |s| ==> GuardLoadsMessage(s, f, j)
    decreases |s| - i
  {
    if i < |s| {
      GuardsLoadMessageFromSound(s, f, i + 1);
    }
  }

  lemma {:induction false} NoCallWhenCountIsZero(s: seq<Instruction>, target: string, i: nat)
    requires i <= |s| && CallCountFrom(s, target, i) == 0
    ensures forall j :: i <= j < |s| ==> !IsCallTo(s[j], target)
    decreases |s| - i
  {
    if i < |s| {
      NoCallWhenCountIsZero(s, target, i + 1);
    }
  }

  lemma GuardsOfNullAndZeroChecks()
    ensures GuardsLoadMessageFrom(GetFunctionInstructions(PCheckNullPointer), PCheckNullPointer, 1)
    ensures GuardsLoadMessageFrom(GetFunctionInstructions(PCheckDivideByZero), PCheckDivideByZero, 1)
  {
  }

  lemma GuardsOfBoundsCheck()
    ensures GuardsLoadMessageFrom(GetFunctionInstructions(PCheckArrayBounds), PCheckArrayBounds, 1)
  {
  }

  /** Every conditional call to the error routine in the routine for `f` follows its message load. */
  predicate GuardsLoad(f: Functions)
  {
    var s := GetFunctionInstructions(f);
    forall i :: 0 < i < |s| ==> GuardLoadsMessage(s, f, i)
  }

  /** A routine that never calls the error routine trivially has all its guards in place. */
  lemma ThrowFreeIsGuarded(f: Functions)
    requires CallCount(GetFunctionInstructions(f), THROW) == 0
    ensures GuardsLoad(f)
  {
    NoCallWhenCountIsZero(GetFunctionInstructions(f), THROW, 0);
  }

  lemma NullPointerGuarded() ensures GuardsLoad(PCheckNullPointer)
  {
    GuardsOfNullAndZeroChecks();
    GuardsLoadMessageFromSound(GetFunctionInstructions(PCheckNullPointer), PCheckNullPointer, 1);
  }

  lemma DivideByZeroGuarded() ensures GuardsLoad(PCheckDivideByZero)
  {
    GuardsOfNullAndZeroChecks();
    GuardsLoadMessageFromSound(GetFunctionInstructions(PCheckDivideByZero), PCheckDivideByZero, 1);
  }

  lemma ArrayBoundsGuarded() ensures GuardsLoad(PCheckArrayBounds)
  {
    GuardsOfBoundsCheck();
    GuardsLoadMessageFromSound(GetFunctionInstructions(PCheckArrayBounds), PCheckArrayBounds, 1);
  }

  lemma OverflowGuarded() ensures GuardsLoad(PThrowOverflowError) { }
  lemma PrintIntGuarded() ensures GuardsLoad(PPrintInt) { PrintIntThrowCount(); ThrowFreeIsGuarded(PPrintInt); }
  lemma PrintBoolGuarded() ensures GuardsLoad(PPrintBool) { PrintBoolThrowCount(); ThrowFreeIsGuarded(PPrintBool); }
  lemma PrintStringGuarded() ensures GuardsLoad(PPrintString) { PrintStringThrowCount(); ThrowFreeIsGuarded(PPrintString); }
  lemma PrintReferenceGuarded() ensures GuardsLoad(PPrintReference) { PrintReferenceThrowCount(); ThrowFreeIsGuarded(PPrintReference); }
  lemma PrintLnGuarded() ensures GuardsLoad(PPrintLn) { PrintLnThrowCount(); ThrowFreeIsGuarded(PPrintLn); }
  lemma ThrowRuntimeErrorGuarded() ensures GuardsLoad(PThrowRuntimeError) { ThrowRuntimeErrorShape(); ThrowFreeIsGuarded(PThrowRuntimeError); }
  lemma ReadIntGuarded() ensures GuardsLoad(PReadInt) { ReadIntThrowCount(); ThrowFreeIsGuarded(PReadInt); }
  lemma ReadCharGuarded() ensures GuardsLoad(PReadChar) { ReadCharThrowCount(); ThrowFreeIsGuarded(PReadChar); }
  lemma FreePairGuarded() ensures GuardsLoad(PFreePair) { FreePairThrowCount(); ThrowFreeIsGuarded(PFreePair); }

  /**
   * Every conditional call to the error routine is preceded by a load of the
   * message label under the same condition; the load targets r0 except
   * for the second array-bounds check, whose load has no destination at all.
   */
  lemma GuardedThrowsLoadTheirMessage(f: Functions)
    ensures var s := GetFunctionInstructions(f);
            forall i :: 0 < i < |s| ==> GuardLoadsMessage(s, f, i)
  {
    match f
    case PCheckNullPointer => NullPointerGuarded();
    case PCheckDivideByZero => DivideByZeroGuarded();
    case PCheckArrayBounds => ArrayBoundsGuarded();
    case PThrowOverflowError => OverflowGuarded();
    case PPrintInt => PrintIntGuarded();
    case PPrintBool => PrintBoolGuarded();
    case PPrintString => PrintStringGuarded();
    case PPrintReference => PrintReferenceGuarded();
    case PPrintLn => PrintLnGuarded();
    case PThrowRuntimeError => ThrowRuntimeErrorGuarded();
    case PReadInt => ReadIntGuarded();
    case PReadChar => ReadCharGuarded();
    case PFreePair => FreePairGuarded();
  }

  /**
   * Each print routine loads its message label, advances r0 past the length
   * word with ADD r0, r0, #4, and ends with MOV r0, #0; BL fflush; POP {pc}.
   */
  lemma PrintRoutinesFlush(f: Functions)
    requires IsPrint(f)
    ensures FlushesAfterMessage(GetFunctionInstructions(f))
  {
    match f
    case PPrintInt => PrintIntFlushes();
    case PPrintBool => PrintBoolFlushes();
    case PPrintString => PrintStringFlushes();
    case PPrintReference => PrintReferenceFlushes();
    case PPrintLn => PrintLnFlushes();
  }

  /**
   * A message load into r0 followed by the skip of the length word, then
   * MOV r0, #0; BL fflush; POP {pc} as the last three instructions.
   */
  predicate FlushesAfterMessage(s: seq<Instruction>)
  {
    && |s| >= 4
    && s[|s| - 3] == ClearR0()
    && s[|s| - 2] == Call("fflush")
    && s[|s| - 1] == PopPc()
    && exists i :: 0 < i < |s| - 3 && s[i] == AddR0Four()
         && s[i - 1].op == LDR && s[i - 1].dest == Some(R0) && s[i - 1].target.Some?
  }

  lemma PrintIntFlushes() ensures FlushesAfterMessage(GetFunctionInstructions(PPrintInt))
  {
    var s := PPrintIntInstruction();
    assert 0 < 3 < |s| - 3 && s[3] == AddR0Four()
      && s[3 - 1].op == LDR && s[3 - 1].dest == Some(R0) && s[3 - 1].target.Some?;
  }

  lemma PrintBoolFlushes() ensures FlushesAfterMessage(GetFunctionInstructions(PPrintBool))
  {
    var s := PPrintBoolInstruction();
    assert 0 < 4 < |s| - 3 && s[4] == AddR0Four()
      && s[4 - 1].op == LDR && s[4 - 1].dest == Some(R0) && s[4 - 1].target.Some?;
  }

  lemma PrintStringFlushes() ensures FlushesAfterMessage(GetFunctionInstructions(PPrintString))
  {
    var s := PPrintStringInstruction();
    assert 0 < 4 < |s| - 3 && s[4] == AddR0Four()
      && s[4 - 1].op == LDR && s[4 - 1].dest == Some(R0) && s[4 - 1].target.Some?;
  }

  lemma PrintReferenceFlushes() ensures FlushesAfterMessage(GetFunctionInstructions(PPrintReference))
  {
    var s := PPrintReferenceInstruction();
    assert 0 < 3 < |s| - 3 && s[3] == AddR0Four()
      && s[3 - 1].op == LDR && s[3 - 1].dest == Some(R0) && s[3 - 1].target.Some?;
  }

  lemma PrintLnFlushes() ensures FlushesAfterMessage(GetFunctionInstructions(PPrintLn))
  {
    var s := PPrintLnInstructions();
    assert 0 < 2 < |s| - 3 && s[2] == AddR0Four()
      && s[2 - 1].op == LDR && s[2 - 1].dest == Some(R0) && s[2 - 1].target.Some?;
  }

  /**
   * print-int differs from print-reference only in its second instruction:
   * MOV r0, r1 where print-reference has MOV r1, r0.
   */
  lemma PrintIntMovesTheWrongWay()
    ensures GetFunctionInstructions(PPrintInt)
            == GetFunctionInstructions(PPrintReference)[1 := OperandForm(MOV, R0, Reg(R1))]
    ensures GetFunctionInstructions(PPrintReference)[1] == OperandForm(MOV, R1, Reg(R0))
  {
  }

  /** read-int and read-char are the same sequence: both read through msg_0. */
  lemma ReadIntIsReadChar()
    ensures GetFunctionInstructions(PReadInt) == GetFunctionInstructions(PReadChar)
  {
  }
}
