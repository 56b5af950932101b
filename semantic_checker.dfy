/**
 * The heuristic semantic checker. It works on the source text of
 * expressions rather than on their trees: it classifies a right-hand side
 * by the operator substrings it contains, checks the pieces between the
 * operators against the symbol table, guesses an array literal's element
 * type from its first element, counts the errors it finds and prints a
 * message for each.
 *
 * The parse-tree contexts become their text and the shape of a type
 * context; the symbol table is a map from names to types; printed lines
 * are appended to `output`.
 */
module SemanticChecking {
  import opened Wrappers
  import opened JavaLang

  datatype Type = INT | BOOL | CHAR | STRING | PAIR | ARRAY | ERROR | ERROR1 | OTHER

  function TypeName(t: Type): string
  {
    match t
    case INT => "INT"
    case BOOL => "BOOL"
    case CHAR => "CHAR"
    case STRING => "STRING"
    case PAIR => "PAIR"
    case ARRAY => "ARRAY"
    case ERROR => "ERROR"
    case ERROR1 => "ERROR1"
    case OTHER => "OTHER"
  }

  datatype Error = IncompatibleTypes | NotDefined

  /** A lexer token: where it starts and its text. */
  datatype Token = Token(line: int, column: int, text: string)

  type SymbolTable = map<string, Type>

  // ------------------------------------------------------------ messages

  function MessageHead(token: Token): string
  {
    "Semantic Error at " + IntToString(token.line) + ":" + IntToString(token.column) + " -- "
  }

  function NotDefinedText(token: Token): string
  {
    "Variable " + token.text + " is not defined in this scope"
  }

  /**
   * The line printSemanticError prints, or None for the
   * NullPointerException a null token raises. The IncompatibleTypes case
   * has no `break`, so it runs on into the NotDefined text.
   */
  function SemanticErrorMessage(error: Error, lType: Option<Type>, rType: Option<Type>, token: Option<Token>): Option<string>
  {
    match token
    case None => None
    case Some(t) =>
      var tail :=
        (match error
         case IncompatibleTypes =>
           "Incompatible type at " + t.text
           + " (expected: " + ShowOrNull(lType, TypeName) + ", actual: " + ShowOrNull(rType, TypeName) + ")"
           + NotDefinedText(t)
         case NotDefined => NotDefinedText(t));
      Some(MessageHead(t) + tail)
  }

  /**
   * An IncompatibleTypes message is the NotDefined message for the same
   * token with the incompatibility text inserted after the head: both
   * begin with the same position and end with "is not defined in this scope".
   */
  lemma IncompatibleMessageRunsIntoNotDefined(lType: Option<Type>, rType: Option<Type>, token: Token)
    ensures var i := SemanticErrorMessage(IncompatibleTypes, lType, rType, Some(token));
            var n := SemanticErrorMessage(NotDefined, lType, rType, Some(token));
            var head := MessageHead(token);
            var body := NotDefinedText(token);
            && i.Some? && n.Some?
            && n.value == head + body
            && |head| + |body| < |i.value|
            && i.value[..|head|] == head
            && i.value[|i.value| - |body|..] == body
  {
    var head, body := MessageHead(token), NotDefinedText(token);
    var middle := "Incompatible type at " + token.text
          + " (expected: " + ShowOrNull(lType, TypeName) + ", actual: " + ShowOrNull(rType, TypeName) + ")";
    var i := SemanticErrorMessage(IncompatibleTypes, lType, rType, Some(token)).value;
    assert i == head + middle + body;
  }

  /** A null token makes printSemanticError throw before anything is printed. */
  lemma NullTokenThrows(error: Error, lType: Option<Type>, rType: Option<Type>)
    ensures SemanticErrorMessage(error, lType, rType, None).None?
  {
  }

  // ------------------------------------------------------- type contexts

  /** Which of its alternatives a type context holds. */
  datatype TypeShape = TypeShape(hasBaseType: bool, hasPairType: bool, hasArrayType: bool)

  /**
   * getTypeContextType. Its four tests on the base type are the same
   * test, so every base type gives INT.
   */
  function TypeContextType(ctx: TypeShape): Type
  {
    if ctx.hasBaseType then
      if ctx.hasBaseType then INT
      else if ctx.hasBaseType then BOOL
      else if ctx.hasBaseType then CHAR
      else if ctx.hasBaseType then STRING
      else OTHER
    else if ctx.hasPairType then PAIR
    else if ctx.hasArrayType then ARRAY
    else OTHER
  }

  lemma TypeContextTypeTable(ctx: TypeShape)
    ensures ctx.hasBaseType ==> TypeContextType(ctx) == INT
    ensures !ctx.hasBaseType && ctx.hasPairType ==> TypeContextType(ctx) == PAIR
    ensures !ctx.hasBaseType && !ctx.hasPairType && ctx.hasArrayType ==> TypeContextType(ctx) == ARRAY
    ensures !ctx.hasBaseType && !ctx.hasPairType && !ctx.hasArrayType ==> TypeContextType(ctx) == OTHER
    ensures TypeContextType(ctx) !in {BOOL, CHAR, STRING, ERROR, ERROR1}
  {
  }

  datatype BaseType = IntBase | BoolBase | CharBase | StringBase

  /** Which of its alternatives a pair-element type context holds. */
  datatype PairElemShape = PairElemShape(baseType: Option<BaseType>, hasArrayType: bool, hasPairToken: bool)

  /** getPairElemType: the array alternative is tested but returns nothing of its own. */
  function PairElemType(ctx: PairElemShape): Type
  {
    if ctx.baseType.Some? then
      (match ctx.baseType.value
       case IntBase => INT
       case BoolBase => BOOL
       case CharBase => CHAR
       case StringBase => STRING)
    else if ctx.hasPairToken then PAIR
    else OTHER
  }

  lemma PairElemArrayIsOther(ctx: PairElemShape)
    requires ctx.baseType.None? && ctx.hasArrayType && !ctx.hasPairToken
    ensures PairElemType(ctx) == OTHER
  {
  }

  // ------------------------------------------------------- piece checks

  /** A piece that checkAllBoolValues accepts. */
  predicate IsBoolValue(value: string, st: SymbolTable)
  {
    value == "true" || value == "false" || (value in st && st[value] == BOOL)
  }

  /** A piece that checkIfIsInt accepts: Integer.parseInt succeeds, or a name declared INT. */
  predicate IsIntValue(value: string, st: SymbolTable)
  {
    IsIntLiteral(value) || (value in st && st[value] == INT)
  }

  predicate AllBoolValues(values: seq<string>, st: SymbolTable)
  {
    forall i :: 0 <= i < |values| ==> IsBoolValue(values[i], st)
  }

  predicate AllIntValues(values: seq<string>, st: SymbolTable)
  {
    forall i :: 0 <= i < |values| ==> IsIntValue(values[i], st)
  }

  // ------------------------------------------------------------ parseRHS

  const LOGICAL_OPERATORS: seq<string> := ["||", "&&", "==", "!="]
  const RELATIONAL_OPERATORS: seq<string> := [">", ">=", "<", "<="]
  const ARITHMETIC_OPERATORS: seq<string> := ["+", "-", "*", "/", "%"]

  /** The separators of the logical split, the regex `\|\||&&|==|!=`. */
  const LOGICAL_SEPARATORS: seq<string> := ["||", "&&", "==", "!="]

  /** The separators of the relational split, the regex `<|>|<=|>=`, in that order. */
  const RELATIONAL_SEPARATORS: seq<string> := ["<", ">", "<=", ">="]

  predicate ContainsAny(s: string, parts: seq<string>)
  {
    exists j :: 0 <= j < |parts| && Contains(s, parts[j])
  }

  /** How many of the three operator classes occur in the text. */
  function ClassCount(text: string): nat
  {
    (if ContainsAny(text, LOGICAL_OPERATORS) then 1 else 0)
    + (if ContainsAny(text, RELATIONAL_OPERATORS) then 1 else 0)
    + (if ContainsAny(text, ARITHMETIC_OPERATORS) then 1 else 0)
  }

  /**
   * parseRHS: None is the null returned for mixed operators. The arithmetic
   * branch splits on a regex whose alternatives, as written, are one or more
   * slashes, a minus, zero or more slashes (so the empty string too), and a
   * single slash; that split is the parameter `arithmeticSplit`.
   */
  function ParseRHS(text: string, st: SymbolTable, arithmeticSplit: string -> seq<string>): (r: Option<Type>)
    ensures r.None? || r.value in {BOOL, INT, ERROR, OTHER}
  {
    var isBoolean := ContainsAny(text, LOGICAL_OPERATORS);
    var isIntBoolean := ContainsAny(text, RELATIONAL_OPERATORS);
    var isInt := ContainsAny(text, ARITHMETIC_OPERATORS);
    if (isBoolean && isIntBoolean) || (isBoolean && isInt) || (isIntBoolean && isInt) then None
    else if isBoolean then
      Some(if AllBoolValues(Split(text, LOGICAL_SEPARATORS), st) then BOOL else ERROR)
    else if isIntBoolean then
      Some(if AllIntValues(Split(text, RELATIONAL_SEPARATORS), st) then BOOL else ERROR)
    else if isInt then
      Some(if AllIntValues(arithmeticSplit(text), st) then INT else ERROR)
    else Some(OTHER)
  }

  /** Null exactly when two or more operator classes occur; OTHER exactly when none does. */
  lemma ParseRHSClassifies(text: string, st: SymbolTable, arithmeticSplit: string -> seq<string>)
    ensures ParseRHS(text, st, arithmeticSplit).None? <==> ClassCount(text) >= 2
    ensures ParseRHS(text, st, arithmeticSplit) == Some(OTHER) <==> ClassCount(text) == 0
  {
  }

  /** Logical operators alone: BOOL when every piece is true, false or a BOOL name, else ERROR. */
  lemma ParseRHSLogical(text: string, st: SymbolTable, arithmeticSplit: string -> seq<string>)
    requires ContainsAny(text, LOGICAL_OPERATORS) && ClassCount(text) == 1
    ensures var values := Split(text, LOGICAL_SEPARATORS);
            && (ParseRHS(text, st, arithmeticSplit) == Some(BOOL) <==> AllBoolValues(values, st))
            && (ParseRHS(text, st, arithmeticSplit) == Some(ERROR) <==> !AllBoolValues(values, st))
  {
  }

  /** Relational operators alone: BOOL when every piece is an int literal or an INT name, else ERROR. */
  lemma ParseRHSRelational(text: string, st: SymbolTable, arithmeticSplit: string -> seq<string>)
    requires ContainsAny(text, RELATIONAL_OPERATORS) && ClassCount(text) == 1
    ensures var values := Split(text, ["<", ">"]);
            && (ParseRHS(text, st, arithmeticSplit) == Some(BOOL) <==> AllIntValues(values, st))
            && (ParseRHS(text, st, arithmeticSplit) == Some(ERROR) <==> !AllIntValues(values, st))
  {
    RelationalSplitIsSingleCharacter(text);
  }

  /** Arithmetic operators alone: INT when every piece of the split is an int literal or an INT name. */
  lemma ParseRHSArithmetic(text: string, st: SymbolTable, arithmeticSplit: string -> seq<string>)
    requires ContainsAny(text, ARITHMETIC_OPERATORS) && ClassCount(text) == 1
    ensures ParseRHS(text, st, arithmeticSplit) == Some(if AllIntValues(arithmeticSplit(text), st) then INT else ERROR)
  {
  }

  /**
   * In the alternation `<|>|<=|>=` the one-character alternatives come
   * first and match wherever the two-character ones would, so the split
   * cuts at every `<` and `>` and never at "<=" or ">=" as a whole.
   */
  lemma RelationalFirstMatch(s: string)
    ensures FirstMatch(s, RELATIONAL_SEPARATORS) == FirstMatch(s, ["<", ">"])
  {
    PrefixOfPrefix("<", "<=", s);
    PrefixOfPrefix(">", ">=", s);
  }

  lemma PrefixOfPrefix(a: string, b: string, s: string)
    ensures a <= b && b <= s ==> a <= s
  {
  }

  lemma {:induction false} RelationalRawSplit(s: string)
    ensures RawSplit(s, RELATIONAL_SEPARATORS) == RawSplit(s, ["<", ">"])
    decreases |s|
  {
    if s != [] {
      RelationalFirstMatch(s);
      match FirstMatch(s, ["<", ">"])
      case Some(k) => RelationalRawSplit(s[k..]);
      case None => RelationalRawSplit(s[1..]);
    }
  }

  lemma RelationalSplitIsSingleCharacter(s: string)
    ensures Split(s, RELATIONAL_SEPARATORS) == Split(s, ["<", ">"])
  {
    RelationalRawSplit(s);
  }

  /** The pieces of a relational split never contain `<` or `>`: "1<=2" leaves the piece "=2". */
  lemma RelationalPiecesHaveNoAngle(s: string)
    ensures forall p :: p in Split(s, RELATIONAL_SEPARATORS) ==> !Contains(p, "<") && !Contains(p, ">")
  {
    RelationalSplitIsSingleCharacter(s);
    SplitPiecesAvoidSeparators(s, ["<", ">"]);
    forall p | p in Split(s, ["<", ">"]) ensures !Contains(p, "<") && !Contains(p, ">") {
      AvoidedIsNotContained(p, ["<", ">"], 0);
      AvoidedIsNotContained(p, ["<", ">"], 1);
    }
  }

  lemma AvoidedIsNotContained(p: string, alts: seq<string>, j: nat)
    requires AvoidsAll(p, alts) && j < |alts|
    ensures !Contains(p, alts[j])
  {
    forall i | 0 <= i <= |p| ensures !(alts[j] <= p[i..]) {
      assert !StartsWithAny(p[i..], alts);
    }
  }

  // ------------------------------------------------- getBaseTypeOfArray

  predicate NoComma(s: string)
  {
    forall i :: 0 <= i < |s| ==> s[i] != ','
  }

  /** The text before the first comma: all of it when there is none. */
  function FirstElement(s: string): (p: string)
    ensures p <= s && NoComma(p)
    ensures |p| < |s| ==> s[|p|] == ','
  {
    if s == [] || s[0] == ',' then []
    else [s[0]] + FirstElement(s[1..])
  }

  /** The text before the first comma is the one prefix with no comma that stops at a comma or at the end. */
  lemma FirstElementUnique(s: string, p: string)
    requires p <= s && NoComma(p) && (|p| < |s| ==> s[|p|] == ',')
    ensures p == FirstElement(s)
  {
    var q := FirstElement(s);
    PrefixesAgree(p, s);
    PrefixesAgree(q, s);
    assert |p| == |q|;
    assert p == s[..|p|] && q == s[..|q|];
  }

  lemma PrefixesAgree(p: string, s: string)
    requires p <= s
    ensures forall k :: 0 <= k < |p| ==> s[k] == p[k]
  {
  }

  /**
   * getBaseTypeOfArray, as a value: None is the
   * StringIndexOutOfBoundsException of a text shorter than two
   * characters, or of an empty first element.
   */
  function BaseTypeOfArray(input: string): Option<Type>
  {
    if |input| < 2 then None
    else ClassifyElement(FirstElement(input[1..|input| - 1]))
  }

  /** The tests applied to the extracted first element, in their order. */
  function ClassifyElement(extract: string): Option<Type>
  {
    if IsIntLiteral(extract) then Some(INT)
    else if ParseBoolean(extract) then Some(BOOL)
    else if |extract| == 0 then None
    else if extract[0] == '\'' then Some(CHAR)
    else if extract[0] == '"' then Some(STRING)
    else if extract[0] == '[' then Some(ARRAY)
    else Some(OTHER)
  }

  /** The brackets and everything after the first comma play no part. */
  lemma BaseTypeReadsFirstElementOnly(open: char, first: string, rest: string, close: char, other: string)
    requires NoComma(first)
    ensures BaseTypeOfArray([open] + first + "," + rest + [close]) == BaseTypeOfArray("[" + first + "]")
    ensures BaseTypeOfArray("[" + first + "," + other + "]") == BaseTypeOfArray("[" + first + "]")
  {
    WithoutBrackets("[", first, "]");
    FirstElementUnique(first, first);
    AfterComma(open, first, rest, close);
    AfterComma('[', first, other, ']');
  }

  /** Between the brackets of `[open] + body + [close]` is `body`. */
  lemma WithoutBrackets(open: string, body: string, close: string)
    requires |open| == 1 && |close| == 1
    ensures BaseTypeOfArray(open + body + close) == ClassifyElement(FirstElement(body))
  {
    var a := open + body + close;
    assert a[1..|a| - 1] == body;
  }

  /** A bracketed text whose first element ends at a comma is classified by that element. */
  lemma AfterComma(open: char, first: string, rest: string, close: char)
    requires NoComma(first)
    ensures BaseTypeOfArray([open] + first + "," + rest + [close]) == ClassifyElement(first)
  {
    var a := [open] + first + "," + rest + [close];
    assert a[1..|a| - 1] == first + "," + rest;
    FirstElementUnique(first + "," + rest, first);
  }

  /** The element type read from a first element, as getBaseTypeOfArray's tests decide it. */
  lemma BaseTypeOfElement(first: string)
    requires NoComma(first)
    ensures var r := BaseTypeOfArray("[" + first + "]");
            && (r == Some(INT) <==> IsIntLiteral(first))
            && (r == Some(BOOL) <==> ParseBoolean(first))
            && (r.None? <==> first == "")
            && (r == Some(CHAR) <==> first != "" && first[0] == '\'')
            && (r == Some(STRING) <==> first != "" && first[0] == '"')
            && (r == Some(ARRAY) <==> first != "" && first[0] == '[')
            && r != Some(PAIR) && r != Some(ERROR) && r != Some(ERROR1)
  {
    var b := "[" + first + "]";
    assert b[1..|b| - 1] == first;
    FirstElementUnique(first, first);
    LeadingSymbolIsNeitherIntNorBoolean(first);
  }

  lemma LeadingSymbolIsNeitherIntNorBoolean(s: string)
    ensures ParseBoolean(s) ==> !IsIntLiteral(s)
    ensures s != [] && (s[0] == '\'' || s[0] == '"' || s[0] == '[') ==> !IsIntLiteral(s) && !ParseBoolean(s)
  {
  }

  /** "false" is not recognised: an array of booleans starting with false is OTHER. */
  lemma FalseFirstElementIsOther(rest: string)
    ensures BaseTypeOfArray("[false," + rest + "]") == Some(OTHER)
  {
    var a := "[false," + rest + "]";
    var inner := "false" + "," + rest;
    assert a[1..|a| - 1] == inner;
    assert NoComma("false");
    FirstElementUnique(inner, "false");
    assert !IsIntLiteral("false") by { assert Magnitude("false") == "false" && !IsDigit("false"[0]); }
    assert !ParseBoolean("false");
  }

  // ------------------------------------------------------------- checker

  /** The only symbols the checker ever declares are typed OTHER. */
  predicate OnlyOtherSymbols(st: SymbolTable)
  {
    forall n :: n in st ==> st[n] == OTHER
  }

  /** getRHSType: every right-hand side is given the type OTHER. */
  function RHSType(): Type { OTHER }

  /** getErrorPos: no position is ever found. */
  function ErrorPos(): Option<Token> { None }

  /** The condition of a while loop that visitWhile_do_done reports. */
  predicate WhileConditionFails(text: string, st: SymbolTable)
  {
    text != "true" && text != "false" && (text !in st || st[text] != BOOL)
  }

  /** The message visitWhile_do_done prints for a failing condition. */
  function WhileMessage(text: string, st: SymbolTable, start: Token, exprStart: Token): string
  {
    if text in st then SemanticErrorMessage(IncompatibleTypes, Some(BOOL), Some(st[text]), Some(start)).value
    else SemanticErrorMessage(NotDefined, None, None, Some(exprStart)).value
  }

  class SemanticChecker {
    var currentST: SymbolTable
    var errors: int
    var output: seq<string>

    /** The checker's symbol table only ever holds OTHER-typed names. */
    predicate Valid()
      reads this
    {
      OnlyOtherSymbols(currentST)
    }

    constructor ()
      ensures Valid()
      ensures currentST == map[] && errors == 0 && output == []
    {
      currentST := map[];
      errors := 0;
      output := [];
    }

    /** checkAllBoolValues: the early return at the first piece that is not a boolean. */
    method CheckAllBoolValues(values: seq<string>) returns (ok: bool)
      ensures ok <==> AllBoolValues(values, currentST)
      ensures !ok ==> exists i :: 0 <= i < |values| && !IsBoolValue(values[i], currentST)
    {
      for i := 0 to |values|
        invariant AllBoolValues(values[..i], currentST)
      {
        var value := values[i];
        if !(value == "true" || value == "false") {
          if value !in currentST {
            return false;
          } else if currentST[value] != BOOL {
            return false;
          }
        }
        assert values[..i + 1] == values[..i] + [value];
      }
      assert values[..|values|] == values;
      return true;
    }

    /** checkIfIsInt: a piece passes when Integer.parseInt accepts it or it names an INT. */
    method CheckIfIsInt(values: seq<string>) returns (ok: bool)
      ensures ok <==> AllIntValues(values, currentST)
      ensures !ok ==> exists i :: 0 <= i < |values| && !IsIntValue(values[i], currentST)
    {
      for i := 0 to |values|
        invariant AllIntValues(values[..i], currentST)
      {
        var value := values[i];
        if ParseInt(value).None? {
          if value !in currentST {
            return false;
          } else if currentST[value] != INT {
            return false;
          }
        }
        assert values[..i + 1] == values[..i] + [value];
      }
      assert values[..|values|] == values;
      return true;
    }

    /** getBaseTypeOfArray: copies characters up to the first comma, then classifies them. */
    method GetBaseTypeOfArray(input: string) returns (r: Option<Type>)
      ensures r == BaseTypeOfArray(input)
    {
      if |input| < 2 {
        return None;
      }
      var inner := input[1..|input| - 1];
      var extract := "";
      var i := 0;
      while i < |inner|
        invariant 0 <= i <= |inner|
        invariant extract == inner[..i] && NoComma(extract)
      {
        if inner[i] != ',' {
          extract := extract + [inner[i]];
        } else {
          break;
        }
        i := i + 1;
      }
      FirstElementUnique(inner, extract);
      if ParseInt(extract).Some? {
        return Some(INT);
      }
      if ParseBoolean(extract) {
        r := Some(BOOL);
      } else if |extract| == 0 {
        r := None;
      } else if extract[0] == '\'' {
        r := Some(CHAR);
      } else if extract[0] == '"' {
        r := Some(STRING);
      } else if extract[0] == '[' {
        r := Some(ARRAY);
      } else {
        r := Some(OTHER);
      }
    }

    /** visitWhile_do_done: one error for a condition that is neither a literal nor a BOOL name. */
    method VisitWhileDoDone(text: string, start: Token, exprStart: Token)
      modifies this
      ensures old(Valid()) ==> Valid()
      ensures currentST == old(currentST)
      ensures errors == old(errors) + (if WhileConditionFails(text, old(currentST)) then 1 else 0)
      ensures output == old(output) + (if WhileConditionFails(text, old(currentST)) then [WhileMessage(text, currentST, start, exprStart)] else [])
    {
      if text != "true" && text != "false" {
        if text in currentST {
          if currentST[text] != BOOL {
            errors := errors + 1;
            var message := SemanticErrorMessage(IncompatibleTypes, Some(BOOL), Some(currentST[text]), Some(start));
            output := output + [message.value];
          }
        } else {
          errors := errors + 1;
          var message := SemanticErrorMessage(NotDefined, None, None, Some(exprStart));
          output := output + [message.value];
        }
      }
    }

    /** visitPrintln: one error, reported as NotDefined, when the text parses as ERROR. */
    method VisitPrintln(text: string, stop: Token, arithmeticSplit: string -> seq<string>)
      modifies this
      ensures old(Valid()) ==> Valid()
      ensures currentST == old(currentST)
      ensures var failed := ParseRHS(text, old(currentST), arithmeticSplit) == Some(ERROR);
              && errors == old(errors) + (if failed then 1 else 0)
              && output == old(output) + (if failed then [SemanticErrorMessage(NotDefined, None, None, Some(stop)).value] else [])
    {
      if ParseRHS(text, currentST, arithmeticSplit) != Some(ERROR) {
        return;
      } else {
        errors := errors + 1;
        var message := SemanticErrorMessage(NotDefined, None, None, Some(stop));
        output := output + [message.value];
      }
    }

    /**
     * visitReassignment: prints a mismatch for a declared name whose type
     * differs from the right-hand side's, but does not count it.
     */
    method VisitReassignment(varName: string, stop: Token)
      modifies this
      ensures old(Valid()) ==> Valid()
      ensures currentST == old(currentST) && errors == old(errors)
      ensures var mismatch := varName in currentST && currentST[varName] != RHSType();
              output == old(output) + (if mismatch then [SemanticErrorMessage(IncompatibleTypes, Some(currentST[varName]), Some(RHSType()), Some(stop)).value] else [])
    {
      var rhsType := RHSType();
      if varName in currentST && rhsType != currentST[varName] {
        var message := SemanticErrorMessage(IncompatibleTypes, Some(currentST[varName]), Some(rhsType), Some(stop));
        output := output + [message.value];
      }
    }

    /**
     * visitDeclaration. `completed` is false when the visit ends in a
     * NullPointerException. A "null" right-hand side declares the name
     * with the right-hand side's type, whatever it is; every other branch
     * depends on that type, and getRHSType always gives OTHER, so nothing
     * else ever happens.
     */
    method VisitDeclaration(ctx: TypeShape, rhsText: string, varName: string, firstExprStart: Option<Token>) returns (completed: bool)
      modifies this
      ensures old(Valid()) ==> Valid()
      ensures completed
      ensures errors == old(errors) && output == old(output)
      ensures currentST == if rhsText == "null" then old(currentST)[varName := OTHER] else old(currentST)
    {
      completed := Declare(TypeContextType(ctx), RHSType(), rhsText, varName, firstExprStart);
    }

    /**
     * The branches of visitDeclaration for any right-hand-side type: an
     * ERROR right-hand side reports at the first expression's start, and
     * two types that differ, neither OTHER, are counted and then reported
     * at getErrorPos's null token, which throws.
     */
    method Declare(lhsType: Type, rhsType: Type, rhsText: string, varName: string, firstExprStart: Option<Token>) returns (completed: bool)
      modifies this
      ensures rhsText == "null" ==> currentST == old(currentST)[varName := rhsType] && errors == old(errors) && output == old(output) && completed
      ensures rhsText != "null" ==> currentST == old(currentST)
      ensures rhsText != "null" && rhsType == ERROR ==>
                var message := SemanticErrorMessage(IncompatibleTypes, Some(lhsType), Some(rhsType), firstExprStart);
                && errors == old(errors)
                && completed == message.Some?
                && output == old(output) + (if message.Some? then [message.value] else [])
      ensures rhsText != "null" && rhsType != ERROR && (lhsType == OTHER || rhsType == OTHER) ==>
                errors == old(errors) && output == old(output) && completed
      ensures rhsText != "null" && rhsType != ERROR && lhsType != OTHER && rhsType != OTHER ==>
                && errors == old(errors) + (if lhsType != rhsType then 1 else 0)
                && output == old(output)
                && completed == (lhsType == rhsType)
    {
      if rhsText == "null" {
        currentST := currentST[varName := rhsType];
        return true;
      }
      if rhsType == ERROR {
        var message := SemanticErrorMessage(IncompatibleTypes, Some(lhsType), Some(rhsType), firstExprStart);
        if message.None? {
          return false;
        }
        output := output + [message.value];
        return true;
      }
      if lhsType == OTHER || rhsType == OTHER {
        return true;
      }
      if lhsType != rhsType {
        errors := errors + 1;
        var message := SemanticErrorMessage(IncompatibleTypes, Some(lhsType), Some(rhsType), ErrorPos());
        // getErrorPos gives no token, so the report throws before printing.
        assert message.None?;
        return false;
      }
      return true;
    }
  }

  // ---------------------------------------- what the invariant implies

  /** With only OTHER symbols, every name in a while condition is reported. */
  lemma WhileOnNameAlwaysFails(text: string, st: SymbolTable)
    requires OnlyOtherSymbols(st) && text != "true" && text != "false"
    ensures WhileConditionFails(text, st)
  {
  }

  /** With only OTHER symbols, a reassignment never prints anything. */
  lemma ReassignmentNeverReports(varName: string, st: SymbolTable)
    requires OnlyOtherSymbols(st)
    ensures !(varName in st && st[varName] != RHSType())
  {
  }

  /** A declaration keeps the invariant: the one name it adds is typed OTHER. */
  lemma DeclarationKeepsOnlyOther(st: SymbolTable, varName: string)
    requires OnlyOtherSymbols(st)
    ensures OnlyOtherSymbols(st[varName := RHSType()])
  {
  }

  /** With only OTHER symbols, the pieces of a logical text pass only when each is a literal true or false. */
  lemma BoolPiecesAreLiterals(values: seq<string>, st: SymbolTable)
    requires OnlyOtherSymbols(st)
    ensures AllBoolValues(values, st) <==> forall i :: 0 <= i < |values| ==> values[i] == "true" || values[i] == "false"
  {
  }
}
