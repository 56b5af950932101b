/**
 * The builder for right-hand sides: seven settable fields, each `with`
 * setter overwriting its own field and handing back the same builder so
 * that calls chain, and five `build` methods that each read a fixed subset
 * of the fields.
 */
module AssignRHSBuilders {
  import opened Wrappers
  import opened Ast

  /** The builder's fields as one value. */
  datatype BuilderState = BuilderState(
    assignType: Option<RHSType>,
    expression1: Option<Expression>,
    expression2: Option<Expression>,
    elements: Option<seq<Expression>>,
    pairElem: Option<PairElem>,
    functionIdent: Option<string>,
    argList: Option<seq<Expression>>)

  const Empty := BuilderState(None, None, None, None, None, None, None)

  class AssignRHSBuilder {
    var assignType: Option<RHSType>
    var expression1: Option<Expression>
    var expression2: Option<Expression>
    var elements: Option<seq<Expression>>
    var pairElem: Option<PairElem>
    var functionIdent: Option<string>
    var argList: Option<seq<Expression>>

    function State(): BuilderState
      reads this
    {
      BuilderState(assignType, expression1, expression2, elements, pairElem, functionIdent, argList)
    }

    /** A new builder has every field null. */
    constructor ()
      ensures State() == Empty
    {
      assignType, expression1, expression2 := None, None, None;
      elements, pairElem, functionIdent, argList := None, None, None, None;
    }

    method WithAssignType(assignType: Option<RHSType>) returns (self: AssignRHSBuilder)
      modifies this
      ensures self == this
      ensures State() == old(State()).(assignType := assignType)
    {
      this.assignType := assignType;
      self := this;
    }

    method WithExpression1(expression1: Option<Expression>) returns (self: AssignRHSBuilder)
      modifies this
      ensures self == this
      ensures State() == old(State()).(expression1 := expression1)
    {
      this.expression1 := expression1;
      self := this;
    }

    method WithExpression2(expression2: Option<Expression>) returns (self: AssignRHSBuilder)
      modifies this
      ensures self == this
      ensures State() == old(State()).(expression2 := expression2)
    {
      this.expression2 := expression2;
      self := this;
    }

    method WithArray(elements: Option<seq<Expression>>) returns (self: AssignRHSBuilder)
      modifies this
      ensures self == this
      ensures State() == old(State()).(elements := elements)
    {
      this.elements := elements;
      self := this;
    }

    method WithPairElem(pairElem: Option<PairElem>) returns (self: AssignRHSBuilder)
      modifies this
      ensures self == this
      ensures State() == old(State()).(pairElem := pairElem)
    {
      this.pairElem := pairElem;
      self := this;
    }

    method WithFunctionIdent(functionIdent: Option<string>) returns (self: AssignRHSBuilder)
      modifies this
      ensures self == this
      ensures State() == old(State()).(functionIdent := functionIdent)
    {
      this.functionIdent := functionIdent;
      self := this;
    }

    method WithArgList(argList: Option<seq<Expression>>) returns (self: AssignRHSBuilder)
      modifies this
      ensures self == this
      ensures State() == old(State()).(argList := argList)
    {
      this.argList := argList;
      self := this;
    }

    // The build methods change nothing (no modifies clause), so two calls
    // in a row give equal results.

    /** The shape and the first expression, nothing else. */
    method BuildExprRHS() returns (r: AssignRHS)
      ensures r.assignType == assignType && r.expression1 == expression1
      ensures r.expression2 == None && r.elements == None && r.pairElem == None
      ensures r.functionIdent == None && r.argList == None
    {
      r := ExprRHS(assignType, expression1);
    }

    /** The shape and the array elements, nothing else. */
    method BuildArray() returns (r: AssignRHS)
      ensures r.assignType == assignType && r.elements == elements
      ensures r.expression1 == None && r.expression2 == None && r.pairElem == None
      ensures r.functionIdent == None && r.argList == None
    {
      r := ArrayRHS(assignType, elements);
    }

    /** The shape and both expressions, nothing else. */
    method BuildNewPair() returns (r: AssignRHS)
      ensures r.assignType == assignType && r.expression1 == expression1 && r.expression2 == expression2
      ensures r.elements == None && r.pairElem == None
      ensures r.functionIdent == None && r.argList == None
    {
      r := NewPairRHS(assignType, expression1, expression2);
    }

    /** The shape and the pair element, nothing else. */
    method BuildPairElem() returns (r: AssignRHS)
      ensures r.assignType == assignType && r.pairElem == pairElem
      ensures r.expression1 == None && r.expression2 == None && r.elements == None
      ensures r.functionIdent == None && r.argList == None
    {
      r := PairElemRHS(assignType, pairElem);
    }

    /** The shape, the function's name and the arguments, nothing else. */
    method BuildCall() returns (r: AssignRHS)
      ensures r.assignType == assignType && r.functionIdent == functionIdent && r.argList == argList
      ensures r.expression1 == None && r.expression2 == None && r.elements == None && r.pairElem == None
    {
      r := CallRHS(assignType, functionIdent, argList);
    }
  }

  /** Setting a field twice keeps the second value; a set in between of another field stays. */
  method LastWriteWins(b: AssignRHSBuilder, first: Option<Expression>, second: Option<Expression>, t: Option<RHSType>)
    modifies b
    ensures b.State() == old(b.State()).(expression1 := second, assignType := t)
  {
    var same := b.WithExpression1(first);
    same := same.WithAssignType(t);
    same := same.WithExpression1(second);
  }
}
