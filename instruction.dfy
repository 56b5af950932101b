/**
 * The target instruction as an immutable value, and its textual rendering.
 *
 * The record is a superset of the class with three static factories and the
 * public constructors that the runtime library and the code generator call:
 * it keeps every constructor argument as given (opcode, destination and
 * source registers, immediate, flexible second operand, label text and
 * condition), each one absent when the constructor does not take it.
 */
module Instructions {
  import opened Wrappers
  import opened JavaLang

  /** A machine register, known by its number. */
  datatype Register = Register(number: int)

  /** The flexible second operand: an immediate, a register, or a register with an offset. */
  datatype Operand2 = Imm(value: int) | Reg(reg: Register) | RegOffset(base: Register, offset: int)

  /** The condition codes the compiler uses. */
  datatype Condition = EQ | NE | LT | CS

  /** The five opcodes the rendering knows, then the ones other components build. */
  datatype Opcode =
    | PUSH | POP | MOV | CMP | ADD
    | LDR | BL | LABEL | DATA | TEXT | GLOBAL_MAIN | LTORG

  /** The text an opcode shows, the name of its enum constant. */
  function OpcodeName(op: Opcode): string
  {
    match op
    case PUSH => "PUSH"
    case POP => "POP"
    case MOV => "MOV"
    case CMP => "CMP"
    case ADD => "ADD"
    case LDR => "LDR"
    case BL => "BL"
    case LABEL => "LABEL"
    case DATA => "DATA"
    case TEXT => "TEXT"
    case GLOBAL_MAIN => "GLOBAL_MAIN"
    case LTORG => "LTORG"
  }

  datatype Instruction = Instruction(
    op: Opcode,
    dest: Option<Register>,
    src: Option<Register>,
    imm: Option<int>,
    operand2: Option<Operand2>,
    target: Option<string>,  // the label text
    cond: Option<Condition>)

  /** The factory taking an immediate: `CMP dest, #imm` and its MOV and ADD kin. */
  function ImmediateForm(op: Opcode, dest: Register, imm: int): (i: Instruction)
    ensures i.op == op && i.dest == Some(dest)
    ensures i.imm == Some(imm) && i.operand2 == None
    ensures i.src == None && i.target == None && i.cond == None
  {
    Instruction(op, Some(dest), None, Some(imm), None, None, None)
  }

  /** The factory taking a flexible second operand. */
  function OperandForm(op: Opcode, dest: Register, operand2: Operand2): (i: Instruction)
    ensures i.op == op && i.dest == Some(dest)
    ensures i.imm == None && i.operand2 == Some(operand2)
    ensures i.src == None && i.target == None && i.cond == None
  {
    Instruction(op, Some(dest), None, None, Some(operand2), None, None)
  }

  /** The factory taking only a register: `PUSH {dest}` and `POP {dest}`. */
  function RegisterForm(op: Opcode, dest: Register): (i: Instruction)
    ensures i.op == op && i.dest == Some(dest)
    ensures i.imm == None && i.operand2 == None
    ensures i.src == None && i.target == None && i.cond == None
  {
    Instruction(op, Some(dest), None, None, None, None, None)
  }

  // The public constructors used elsewhere, each recording the arguments it takes.

  function WithLabel(op: Opcode, target: string): Instruction
  {
    Instruction(op, None, None, None, None, Some(target), None)
  }

  function WithLabelAndCondition(op: Opcode, target: string, cond: Condition): Instruction
  {
    Instruction(op, None, None, None, None, Some(target), Some(cond))
  }

  function WithDestAndLabel(op: Opcode, dest: Register, target: string): Instruction
  {
    Instruction(op, Some(dest), None, None, None, Some(target), None)
  }

  function WithDestLabelAndCondition(op: Opcode, dest: Register, target: string, cond: Condition): Instruction
  {
    Instruction(op, Some(dest), None, None, None, Some(target), Some(cond))
  }

  function WithDestSourceAndOperand(op: Opcode, dest: Register, src: Register, operand2: Operand2): Instruction
  {
    Instruction(op, Some(dest), Some(src), None, Some(operand2), None, None)
  }

  predicate Renderable(op: Opcode)
  {
    op == PUSH || op == POP || op == MOV || op == CMP || op == ADD
  }

  /**
   * toString. The text of a register is whatever `showRegister` gives. None is
   * the null returned for an opcode with no format of its own. An absent
   * destination or immediate shows as "null", as string concatenation does.
   */
  function Render(i: Instruction, showRegister: Register -> string): (text: Option<string>)
    ensures text.Some? <==> Renderable(i.op)
  {
    var dest := ShowOrNull(i.dest, showRegister);
    if i.op == PUSH || i.op == POP then
      Some(OpcodeName(i.op) + " {" + dest + "}")
    else if i.op == CMP || i.op == MOV || i.op == ADD then
      if i.operand2.None? then
        Some(OpcodeName(i.op) + " " + dest + ", #" + ShowOrNull(i.imm, IntToString))
      else
        Some(OpcodeName(i.op) + " " + dest + ", " + ShowOrNull(i.imm, IntToString))
    else
      None
  }

  /** PUSH and POP show their register in braces. */
  lemma RenderStackForm(op: Opcode, dest: Register, showRegister: Register -> string)
    requires op == PUSH || op == POP
    ensures Render(RegisterForm(op, dest), showRegister) == Some(OpcodeName(op) + " {" + showRegister(dest) + "}")
  {
  }

  /**
   * An instruction from the immediate factory shows `op dest, #imm`, and the
   * text after the '#' reads back as the immediate.
   */
  lemma RenderImmediateForm(op: Opcode, dest: Register, imm: int, showRegister: Register -> string)
    requires op == CMP || op == MOV || op == ADD
    requires INT_MIN <= imm <= INT_MAX
    ensures var prefix := OpcodeName(op) + " " + showRegister(dest) + ", #";
            && Render(ImmediateForm(op, dest, imm), showRegister) == Some(prefix + IntToString(imm))
            && ParseInt(Render(ImmediateForm(op, dest, imm), showRegister).value[|prefix|..]) == Some(imm)
  {
    var prefix := OpcodeName(op) + " " + showRegister(dest) + ", #";
    ParseIntOfIntToString(imm);
    assert (prefix + IntToString(imm))[|prefix|..] == IntToString(imm);
  }

  /**
   * An instruction from the operand factory never shows its operand: the text
   * ends in ", null" whatever the operand is.
   */
  lemma RenderOperandForm(op: Opcode, dest: Register, operand2: Operand2, other: Operand2, showRegister: Register -> string)
    requires op == CMP || op == MOV || op == ADD
    ensures Render(OperandForm(op, dest, operand2), showRegister) == Some(OpcodeName(op) + " " + showRegister(dest) + ", null")
    ensures Render(OperandForm(op, dest, operand2), showRegister) == Render(OperandForm(op, dest, other), showRegister)
  {
    var head := OpcodeName(op) + " " + showRegister(dest);
    assert head + ", " + "null" == head + ", null";
  }

  /** The register-only factory used with CMP, MOV or ADD shows its immediate as "#null". */
  lemma RenderRegisterFormArithmetic(op: Opcode, dest: Register, showRegister: Register -> string)
    requires op == CMP || op == MOV || op == ADD
    ensures Render(RegisterForm(op, dest), showRegister) == Some(OpcodeName(op) + " " + showRegister(dest) + ", #null")
  {
    var head := OpcodeName(op) + " " + showRegister(dest);
    assert head + ", #" + "null" == head + ", #null";
  }
}
