# A verified model of the WACC compiler backend

This project models the core of a compiler for WACC, a small teaching language, written in Java.
It covers six parts:

- **The runtime-support catalogue** (`predefined_functions.dfy`). There are thirteen fixed ARM
  instruction sequences: print int/bool/string/reference/newline, the null-pointer,
  divide-by-zero and array-bounds checks, the two error throwers, read int/char and free-pair.
  A switch picks one of them by enum constant.
- **The instruction record and its text rendering** (`instruction.dfy`). There is one
  `Instruction` datatype. It holds the union of what the three static factories and the public
  constructors used elsewhere record: opcode, destination, source, immediate, `Operand2`, label
  and condition code. `Render` is the `toString` of the five opcodes that have one.
- **The code generator** (`converter.dfy`). It lowers statements, literals, relational operators
  and whole programs into instruction sequences. It also models the expression walk that can
  return null or throw.
- **The heuristic semantic checker** (`semantic_checker.dfy`). It classifies operator-containing
  text, checks split pieces against a symbol table, sniffs an array literal's element type, and
  keeps the `errors` counter and the printed messages.
- **The statement record** (`statement.dfy`). It has nine constructors and `toString`.
- **The right-hand-side builder** (`assign_rhs_builder.dfy`). It is a class with seven setters
  that return `this` and five `build` methods.

The remaining files are shared:

- `wrappers.dfy` holds `Option`.
- `ast.dfy` holds the syntax-tree classes those parts use but whose code is not part of this
  model: `Expression`, `Type`, `AssignLHS`, `AssignRHS`, `PairElem`.
- `java_lang.dfy` holds the JDK behaviour the code relies on:
  - `Integer.toString` and `Integer.parseInt`;
  - `Boolean.parseBoolean`;
  - `Character.getNumericValue` on ASCII;
  - `String.contains`;
  - `String.split` for a regular expression made of literal alternatives. The split is
    leftmost, takes the first alternative that matches, keeps the whole text when nothing
    matches, and drops trailing empty strings otherwise. Joining the pieces with the
    separators consumed, empty pieces in place of the dropped ones, gives back the text.

Java `null` is `None`. A `NullPointerException` or an out-of-range `substring` is a `None` (or
`NullPointer`) result. `toString` of a class that is not shown is a function parameter. So is
the default visitor dispatch of the unshown `ASTVisitor`, which is the `fallback` parameter.

The code's oddities are kept as written, and lemmas state them:

- print-int emits `MOV r0, r1` where print-reference emits `MOV r1, r0`.
- The second array-bounds check loads its message with a CS `LDR` that has no destination
  register.
- free-pair branches to the error routine through a raw label line `BEQ p_throw_runtime_error`.
  It never does so through a `BL`.
- Every string literal loads the one label `msg_0`.
- The relational visitors end in `MOV r1, #1` with no condition code, so all four operators emit
  the same code.
- `printSemanticError` has no `break` after its IncompatibleTypes case, so that message runs on
  into the "is not defined" text.
- `getTypeContextType` repeats one test four times, so every base type is INT.
- `getRHSType` always returns OTHER. As a result, `visitDeclaration` never counts an error, and
  the only names the checker declares are typed OTHER. `SemanticChecker.Valid` is the invariant
  that every symbol is OTHER, and the visit methods keep it.
- The relational split `<|>|<=|>=` tries the single-character alternatives first. So it cuts
  "1<=2" into "1" and "=2", and `parseRHS` gives ERROR for it.
- `getBaseTypeOfArray` recognises "true" in any letter case but not "false", which gives OTHER.

## Model

| member | source | states |
|---|---|---|
| PredefinedFunctions.RoutinesAreFramed | src/main/java/assembly/PredefinedFunctions.java:16-72 | every one of the 13 routines is non-empty, and it is framed by `PUSH {lr}` … `POP {pc}` exactly when it is not one of the two throwers |
| PredefinedFunctions.ThrowRuntimeErrorShape | src/main/java/assembly/PredefinedFunctions.java:250-263 | the routine is exactly `BL p_print_string; MOV r0,#-1; BL exit`, with no PUSH, POP or label line |
| PredefinedFunctions.ThrowOverflowErrorShape | src/main/java/assembly/PredefinedFunctions.java:265-277 | the routine is exactly `LDR r0,=msg_0; BL p_throw_runtime_error`, calling the error routine once |
| PredefinedFunctions.NullPointerCheck | src/main/java/assembly/PredefinedFunctions.java:229-247 | the routine compares r0 with #0; every instruction between that compare and the final POP carries EQ; it calls the error routine once |
| PredefinedFunctions.DivideByZeroCheck | src/main/java/assembly/PredefinedFunctions.java:279-299 | the routine is the null-pointer check with the compare on r1 instead of r0 |
| PredefinedFunctions.ArrayBoundsChecks | src/main/java/assembly/PredefinedFunctions.java:302-334 | two calls to the error routine: an LT one after `CMP r0,#0`, and a CS one after `LDR r1,[r1]; CMP r0,r1`; the CS message load has no destination |
| PredefinedFunctions.PrintRoutinesNeverThrow | src/main/java/assembly/PredefinedFunctions.java:74-226 | none of the five print routines calls the error routine |
| PredefinedFunctions.ReadRoutinesNeverThrow | src/main/java/assembly/PredefinedFunctions.java:337-386 | neither read routine calls the error routine |
| PredefinedFunctions.WhoCallsThrow | src/main/java/assembly/PredefinedFunctions.java:26-72 | a routine calls the error routine through BL exactly when it is one of the three checks or the overflow thrower |
| PredefinedFunctions.GuardedThrowsLoadTheirMessage | src/main/java/assembly/PredefinedFunctions.java:229-334 | in every routine, each conditional call to the error routine follows a message load under the same condition; the load goes into r0, except in the array-bounds CS case |
| PredefinedFunctions.PrintRoutinesFlush | src/main/java/assembly/PredefinedFunctions.java:74-226 | each print routine loads a label into r0, then does `ADD r0,r0,#4`, and ends with `MOV r0,#0; BL fflush; POP {pc}` |
| PredefinedFunctions.PrintIntMovesTheWrongWay | src/main/java/assembly/PredefinedFunctions.java:74-102 | print-int is print-reference with its `MOV r1,r0` replaced by `MOV r0,r1` |
| PredefinedFunctions.ReadIntIsReadChar | src/main/java/assembly/PredefinedFunctions.java:337-386 | read-int and read-char are the same sequence |
| PredefinedFunctions.FreePairSavesR0Once | src/main/java/assembly/PredefinedFunctions.java:389-433 | free-pair has exactly one PUSH, namely `PUSH {r0}`, and exactly one POP, namely `POP {r0}` |
| PredefinedFunctions.FreePairCallsFreeThrice | src/main/java/assembly/PredefinedFunctions.java:389-433 | free-pair calls `free` exactly three times and makes no other BL |
| PredefinedFunctions.FreePairBranchIsALabel | src/main/java/assembly/PredefinedFunctions.java:403-404 | free-pair reaches the error routine only through the raw label line `BEQ p_throw_runtime_error`, never through BL |
| Instructions.ImmediateForm | src/main/java/assembly/Instruction.java:20-22 | sets the opcode, the destination and the immediate; leaves the operand, and every other field, null |
| Instructions.OperandForm | src/main/java/assembly/Instruction.java:27-29 | sets the opcode, the destination and the operand; leaves the immediate null |
| Instructions.RegisterForm | src/main/java/assembly/Instruction.java:33-35 | sets the opcode and the destination only |
| Instructions.Render | src/main/java/assembly/Instruction.java:38-57 | the text is non-null exactly for PUSH, POP, CMP, MOV and ADD |
| Instructions.RenderStackForm | src/main/java/assembly/Instruction.java:41-43 | PUSH and POP render as `op {dest}` |
| Instructions.RenderImmediateForm | src/main/java/assembly/Instruction.java:46-51 | CMP/MOV/ADD without an operand render as `op dest, #imm`, and the text after `#` parses back to the immediate |
| Instructions.RenderOperandForm | src/main/java/assembly/Instruction.java:53-54 | with an operand the text is `op dest, null`, the same whatever the operand is |
| Instructions.RenderRegisterFormArithmetic | src/main/java/assembly/Instruction.java:49-50 | the register-only factory used with CMP/MOV/ADD renders as `op dest, #null` |
| Statements.OfType | src/main/java/ast/Statement.java:14-23 | sets the kind; no field is populated |
| Statements.WithDeclaration | src/main/java/ast/Statement.java:25-34 | sets the kind, the declared type, the name and the RHS, and nothing else |
| Statements.WithAssignment | src/main/java/ast/Statement.java:36-45 | sets the kind, the LHS and the RHS, and nothing else |
| Statements.WithTarget | src/main/java/ast/Statement.java:47-56 | sets the kind and the LHS, and nothing else |
| Statements.WithExpression | src/main/java/ast/Statement.java:58-67 | sets the kind and the expression, and nothing else |
| Statements.WithBranches | src/main/java/ast/Statement.java:69-78 | sets the kind, the condition and both branches, and nothing else |
| Statements.WithBody | src/main/java/ast/Statement.java:80-89 | sets the kind, the condition and the body, and nothing else |
| Statements.WithStatement | src/main/java/ast/Statement.java:91-100 | sets the kind and the first statement, and nothing else |
| Statements.WithStatements | src/main/java/ast/Statement.java:102-111 | sets the kind and both statements, and nothing else |
| Statements.StatTypeNamedInverts | src/main/java/ast/Statement.java:190-206 | the enum constant names are distinct: every kind is recovered from its printed name |
| Statements.RenderFrame | src/main/java/ast/Statement.java:148-187 | every text starts with "Statement{statType=" and the kind's name; a comma, a space or '}' follows the name; the text ends with '}' |
| Statements.RenderRevealsStatType | src/main/java/ast/Statement.java:148-187 | two statements with the same text have the same kind, whatever the field printers |
| Statements.RenderReadsShownFields | src/main/java/ast/Statement.java:148-187 | the text depends only on the kind and the fields that kind prints |
| Statements.WhileIgnoresSecondStatement | src/main/java/ast/Statement.java:174-177 | a WHILE text does not depend on the second statement |
| Statements.RenderSkip | src/main/java/ast/Statement.java:148-187 | SKIP renders exactly as "Statement{statType=SKIP}" |
| Statements.RenderDeclaration | src/main/java/ast/Statement.java:150-152 | DECLARATION appends ", T x = rhs" |
| Statements.RenderReassignment | src/main/java/ast/Statement.java:154-156 | REASSIGNMENT appends ", lhs = rhs" |
| Statements.RenderRead | src/main/java/ast/Statement.java:158-160 | READ appends " lhs", with no comma |
| Statements.RenderExpressionKind | src/main/java/ast/Statement.java:162-168 | FREE, RETURN, EXIT, PRINT and PRINTLN append " " and the expression |
| Statements.RenderIf | src/main/java/ast/Statement.java:170-172 | IF appends the condition, then the two branch texts |
| Statements.RenderWhile | src/main/java/ast/Statement.java:174-177 | WHILE appends the condition and the body text |
| Statements.RenderBegin | src/main/java/ast/Statement.java:179-181 | BEGIN wraps the body text in "begin … end" |
| Statements.RenderConcat | src/main/java/ast/Statement.java:183-185 | CONCAT appends the first text, then the second |
| AssignRHSBuilders.AssignRHSBuilder.constructor | src/main/java/ast/AssignRHSBuilder.java:7-13 | a new builder has every field null |
| AssignRHSBuilders.AssignRHSBuilder.WithAssignType | src/main/java/ast/AssignRHSBuilder.java:15-18 | writes the assign type and no other field; returns the same builder |
| AssignRHSBuilders.AssignRHSBuilder.WithExpression1 | src/main/java/ast/AssignRHSBuilder.java:20-23 | writes the first expression and no other field; returns the same builder |
| AssignRHSBuilders.AssignRHSBuilder.WithExpression2 | src/main/java/ast/AssignRHSBuilder.java:25-28 | writes the second expression and no other field; returns the same builder |
| AssignRHSBuilders.AssignRHSBuilder.WithArray | src/main/java/ast/AssignRHSBuilder.java:30-33 | writes the array and no other field; returns the same builder |
| AssignRHSBuilders.AssignRHSBuilder.WithPairElem | src/main/java/ast/AssignRHSBuilder.java:35-38 | writes the pair element and no other field; returns the same builder |
| AssignRHSBuilders.AssignRHSBuilder.WithFunctionIdent | src/main/java/ast/AssignRHSBuilder.java:40-43 | writes the function name and no other field; returns the same builder |
| AssignRHSBuilders.AssignRHSBuilder.WithArgList | src/main/java/ast/AssignRHSBuilder.java:45-48 | writes the argument list and no other field; returns the same builder |
| AssignRHSBuilders.LastWriteWins | src/main/java/ast/AssignRHSBuilder.java:15-23 | setting a field twice keeps the last value; a set of another field in between stays |
| AssignRHSBuilders.AssignRHSBuilder.BuildExprRHS | src/main/java/ast/AssignRHSBuilder.java:50-52 | reads only the assign type and the first expression; changes nothing |
| AssignRHSBuilders.AssignRHSBuilder.BuildArray | src/main/java/ast/AssignRHSBuilder.java:54-56 | reads only the assign type and the array; changes nothing |
| AssignRHSBuilders.AssignRHSBuilder.BuildNewPair | src/main/java/ast/AssignRHSBuilder.java:58-60 | reads only the assign type and the two expressions; changes nothing |
| AssignRHSBuilders.AssignRHSBuilder.BuildPairElem | src/main/java/ast/AssignRHSBuilder.java:62-64 | reads only the assign type and the pair element; changes nothing |
| AssignRHSBuilders.AssignRHSBuilder.BuildCall | src/main/java/ast/AssignRHSBuilder.java:66-68 | reads only the assign type, the function name and the arguments; changes nothing |
| Converter.GeneralRegistersAscend | src/main/java/Converter.java:101-107 | the register file is r0..r12: 13 entries in ascending order |
| Converter.InitialiseGeneralRegisters | src/main/java/Converter.java:101-107 | the counting loop yields 13 registers, the k-th numbered k |
| Converter.LiteralsMoveIntoR2 | src/main/java/Converter.java:167-182 | an int, bool or char literal is a single MOV into r2: of the value, of 1/0, or of the character's numeric value (a digit's value for a digit) |
| Converter.StringLiteralsShareOneLabel | src/main/java/Converter.java:185-191 | every string literal lowers to `LDR r1,=msg_0; PUSH {r1}`, whatever its text |
| Converter.RelationalLowering | src/main/java/Converter.java:195-285 | each of >, >=, < and <= yields the left code, the right code, then `CMP r1,r2; MOV r1,#0; MOV r1,#1`, with no condition on the last; the four are equal |
| Converter.SkipEmitsNothing | src/main/java/Converter.java:161-164 | skip yields no instructions |
| Converter.ConcatAppends | src/main/java/Converter.java:150-158 | `s1; s2` yields the code of s1, then the code of s2 |
| Converter.SkipIsUnitOfConcat | src/main/java/Converter.java:150-164 | `skip; s` and `s; skip` lower like s |
| Converter.ParametersEmitNothing | src/main/java/Converter.java:144-147 | a function lowers to its body's code, whatever its parameters |
| Converter.FunctionsCodeFromFront | src/main/java/Converter.java:126-128 | the functions' code is the first function's code, then the rest's |
| Converter.FunctionsCodeSplits | src/main/java/Converter.java:126-128 | the code of a split function list is the code of the two parts, in order |
| Converter.VisitProgram | src/main/java/Converter.java:115-141 | the program is DATA, TEXT, GLOBAL_MAIN, each function's code in order, DATA "main", the body's code, then LTORG; starts with the three directives and ends with LTORG |
| Converter.FunctionsCodeHasNoPool | src/main/java/Converter.java:126-128 | when no function emits LTORG, the concatenated functions' code has none |
| Converter.GetInstructionFromExpression | src/main/java/Converter.java:24-97 | the recursive walk returns the lowering of the expression, null for a null expression |
| Converter.Lower | src/main/java/Converter.java:29-96 | the switch on the expression kind computes the lowering of the expression |
| Converter.LowerIndices | src/main/java/Converter.java:85-90 | the loop over an array element's indices appends their code in order and stops at the first that throws |
| Converter.IndicesStayFailed | src/main/java/Converter.java:85-90 | once an index has thrown, the array element throws |
| Converter.NullExpressionGivesNull | src/main/java/Converter.java:26-28 | a null expression gives null |
| Converter.BracketsAreTransparent | src/main/java/Converter.java:92-93 | a bracketed expression lowers like its inner expression |
| Converter.IdentifierThrowsWithoutSymbolTable | src/main/java/Converter.java:62-63 | with no symbol table, an identifier throws |
| Converter.NullOnlyFromNullOperand | src/main/java/Converter.java:29-96 | only a bracketed expression can give null (null inside), so, with the expression and element kinds exactly the switch's labels, no kind reaches the final `return null` |
| Converter.IndicesLoweringFlattens | src/main/java/Converter.java:85-90 | the left-to-right accumulation over the first k indices equals the flattening of their results |
| Converter.ArrayElemConcatenatesIndices | src/main/java/Converter.java:85-90 | an array element lowers to the concatenation of its index expressions' code, in order, and throws if any of them does |
| JavaLang.ParseIntOfIntToString | src/main/java/SemanticChecker.java:143 | Integer.parseInt reads back every 32-bit integer as Integer.toString prints it |
| JavaLang.ParseBoolean | src/main/java/SemanticChecker.java:244 | true exactly for a four-letter text that lower-cases to "true" |
| JavaLang.NumericValue | src/main/java/Converter.java:180 | a digit's numeric value is its value; every result lies between -1 and 35 |
| JavaLang.SplitPiecesAvoidSeparators | src/main/java/SemanticChecker.java:168 | no piece String.split returns contains one of its separators |
| JavaLang.RawSplitJoins | src/main/java/SemanticChecker.java:168-174 | the scan consumes one separator between consecutive pieces, each one of the alternatives, and joining the pieces with them gives back the text |
| JavaLang.SplitRoundTrip | src/main/java/SemanticChecker.java:168-174 | the pieces String.split returns, followed by as many empty pieces as it dropped, joined with separators that are all alternatives, give back the text |
| JavaLang.SplitKeepsUnmatchedText | src/main/java/SemanticChecker.java:168-174 | String.split returns exactly the one piece holding the whole text if and only if no alternative occurs in it |
| JavaLang.SeparatorFoundWhenOneOccurs | src/main/java/SemanticChecker.java:168-174 | the scan consumes a separator exactly when some alternative occurs in the text |
| JavaLang.FirstMatchIsAlternative | src/main/java/SemanticChecker.java:168-174 | the separator matched at the front is one of the alternatives |
| SemanticChecking.IncompatibleMessageRunsIntoNotDefined | src/main/java/SemanticChecker.java:24-37 | the IncompatibleTypes message starts with the position head and ends with the NotDefined text, because the case has no break |
| SemanticChecking.NullTokenThrows | src/main/java/SemanticChecker.java:26 | a null token makes the report throw |
| SemanticChecking.TypeContextTypeTable | src/main/java/SemanticChecker.java:100-122 | any base type gives INT, then pair gives PAIR, then array gives ARRAY, else OTHER; never BOOL, CHAR or STRING |
| SemanticChecking.PairElemArrayIsOther | src/main/java/SemanticChecker.java:202-222 | an array pair-element type gives OTHER |
| SemanticChecking.ParseRHS | src/main/java/SemanticChecker.java:157-187 | the result is null, or BOOL, INT, ERROR or OTHER |
| SemanticChecking.ParseRHSClassifies | src/main/java/SemanticChecker.java:159-166 | null exactly when two or more operator classes occur; OTHER exactly when none does |
| SemanticChecking.ParseRHSLogical | src/main/java/SemanticChecker.java:167-172 | with logical operators only, BOOL exactly when every split piece is true, false or a BOOL name, else ERROR |
| SemanticChecking.ParseRHSRelational | src/main/java/SemanticChecker.java:173-178 | with relational operators only, BOOL exactly when every piece of the `<`/`>` split is an int literal or an INT name, else ERROR |
| SemanticChecking.ParseRHSArithmetic | src/main/java/SemanticChecker.java:179-184 | with arithmetic operators only, INT exactly when every piece of the arithmetic split is an int literal or an INT name, else ERROR |
| SemanticChecking.RelationalSplitIsSingleCharacter | src/main/java/SemanticChecker.java:174 | the split on `<|>|<=|>=` equals the split on `<|>` |
| SemanticChecking.RelationalPiecesHaveNoAngle | src/main/java/SemanticChecker.java:174 | no piece of the relational split contains `<` or `>` |
| SemanticChecking.FirstElement | src/main/java/SemanticChecker.java:235-241 | the element is a prefix with no comma, stopping at a comma or at the end |
| SemanticChecking.FirstElementUnique | src/main/java/SemanticChecker.java:235-241 | it is the only such prefix |
| SemanticChecking.SemanticChecker.GetBaseTypeOfArray | src/main/java/SemanticChecker.java:231-259 | the copying loop with break computes the element type of the first element between the brackets |
| SemanticChecking.BaseTypeReadsFirstElementOnly | src/main/java/SemanticChecker.java:232-241 | the two brackets and everything after the first comma play no part |
| SemanticChecking.BaseTypeOfElement | src/main/java/SemanticChecker.java:243-256 | INT exactly for an int literal; BOOL exactly for "true" in any case; CHAR/STRING/ARRAY exactly for a leading quote, double quote or bracket; an exception exactly for an empty element; never PAIR or ERROR |
| SemanticChecking.FalseFirstElementIsOther | src/main/java/SemanticChecker.java:243-258 | an array starting with false gives OTHER |
| SemanticChecking.SemanticChecker.constructor | src/main/java/SemanticChecker.java:17-19 | the checker starts with an empty table, no errors and no output, and satisfies its invariant |
| SemanticChecking.SemanticChecker.CheckAllBoolValues | src/main/java/SemanticChecker.java:124-137 | true exactly when every piece is true, false or a BOOL name (so true for no pieces); false names an offending piece |
| SemanticChecking.SemanticChecker.CheckIfIsInt | src/main/java/SemanticChecker.java:139-155 | true exactly when every piece parses as an int or names an INT (so true for no pieces); false names an offending piece |
| SemanticChecking.SemanticChecker.VisitWhileDoDone | src/main/java/SemanticChecker.java:78-92 | adds 1 to `errors` and prints one message exactly when the condition is neither literal nor a BOOL name; the table is unchanged; keeps the invariant |
| SemanticChecking.SemanticChecker.VisitPrintln | src/main/java/SemanticChecker.java:327-335 | adds 1 and prints a NotDefined message exactly when the text parses as ERROR; keeps the invariant |
| SemanticChecking.SemanticChecker.VisitReassignment | src/main/java/SemanticChecker.java:56-72 | prints a mismatch for a declared name of another type than OTHER, without counting it; keeps the invariant |
| SemanticChecking.SemanticChecker.VisitDeclaration | src/main/java/SemanticChecker.java:289-316 | never changes `errors` or the output; a "null" right-hand side declares the name as OTHER; keeps the invariant |
| SemanticChecking.SemanticChecker.Declare | src/main/java/SemanticChecker.java:296-315 | the declaration's branches for any right-hand-side type: declare on "null", report an ERROR, skip OTHER, count a mismatch and then throw on the null position |
| SemanticChecking.WhileOnNameAlwaysFails | src/main/java/SemanticChecker.java:78-92 | with only OTHER symbols, every non-literal while condition is counted |
| SemanticChecking.ReassignmentNeverReports | src/main/java/SemanticChecker.java:66-68 | with only OTHER symbols, a reassignment prints nothing |
| SemanticChecking.DeclarationKeepsOnlyOther | src/main/java/SemanticChecker.java:296-298 | declaring a name with getRHSType's type keeps every symbol OTHER |
| SemanticChecking.BoolPiecesAreLiterals | src/main/java/SemanticChecker.java:124-137 | with only OTHER symbols, a piece list passes the bool check exactly when every piece is a literal true or false |

## Left out

- I/O: `System.out.println` is the `output` sequence of the checker. The CLI driver, with its
  ANTLR lexing, file reading and writing, and exit codes, is not part of this model
  (`src/main/java/Compiler.java`).
- `src/main/java/assembly/instructions/Instruction.java` is a field holder with no behaviour and
  is not part of this model.
- ANTLR parse-tree contexts and `visitChildren`. The checker's visitors take the expression text,
  the tokens and the type-context shape as inputs. The visitors that only call `visitChildren`
  change nothing and are not modelled.
- The `ASTVisitor` dispatch is not shown. `VisitExpression` and `VisitStatement` give the
  overridden cases; every other kind goes to the `fallback` parameter. So a Java `null` from
  an unoverridden visitor and the `NullPointerException` of `addAll(null)` in the code
  generator are not modelled.
- `getArrayType` is left out, because it depends on ANTLR token numbering through the magic
  number 25.
- `validateArrayType` is left out, because it reads values out of parse contexts.
- `getExpressionContextType` and `matchingTypes` are used only by those two, so they are left
  out too.
- The arithmetic split `/+|-|/*|/` is, as written, a run of one or more slashes, a minus,
  zero or more slashes (so the empty string too), or one slash: `+` and `*` there are
  quantifiers, not operators. Java's regex handling of the empty match is not modelled; the
  split is the `arithmeticSplit` parameter.
- Converter.NullOnlyFromNullOperand: the enums `Expression.ExprType` and `Type.EType` are not
  part of this model, and `ExprType` and `EType` are taken to have exactly the constants the
  switch of `getInstructionFromExpression` names (the 25 outer labels and the six inner
  ones). A kind with no label, such as a pair literal `null` if the enum has one, would reach
  the final `return null`. An element type outside the six would fall through the inner
  switch into the ARRAYELEM case. The model has neither.
- `Integer.parseInt` is modelled on ASCII digits only; the JDK also accepts other Unicode
  digits. `Character.getNumericValue` is modelled on ASCII only.
- Integer width: `errors` is unbounded, so its 32-bit overflow is not modelled. The immediates
  are unbounded integers, and rendering them is proved only on the 32-bit range.
- `toString` of the classes that are not shown (Register, Type, Expression, AssignLHS,
  AssignRHS) is a function parameter. `Render` in `instruction.dfy` takes the register
  printer; `statement.dfy` takes the `Printers`.
- The symbol table class is not shown. It is a map from names to types, and scopes with their
  parent tables are not modelled. `getType` on a missing name is taken to give null rather
  than throw. This matters only for the right operand of the non-short-circuit `&` in
  `visitReassignment`.
- `visitReassignment` on an array or pair target takes `IDENT()` of the target, which is null
  and throws. That case is not modelled: the method takes the name as a string.
- visitDeclaration: the "expr(0)" of an RHS with no expression throws. The model takes that
  position as an `Option<Token>`, where `None` is the throw.
- The code generator's `currentST` field is never assigned, so it is null when the walk runs.
  It is the `Option` parameter of the lowering, and a lemma states the `None` case.
- The code generator's `translateDeclaration` has an empty body and is not modelled.
- Commented-out code in `visitReassignment` is not behaviour and is not modelled.
- No constructor argument of `Statement` is null in the model: each argument is a value.
  A `null` passed by a caller is not represented.
