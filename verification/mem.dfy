/** The Forth-style operand stack through which cards travel between pipeline steps. */
module Mem {
  import opened Wrappers
  import opened Values

  /** The IndexError that popping or peeking an empty list raises. */
  datatype MemError = EmptyStack

  /** The module-level list S; its last element is the top of the stack. */
  class OperandStack {
    var stack: seq<Value>

    constructor ()
      ensures stack == []
    {
      stack := [];
    }

    /** ( -- x ) */
    method Push(x: Value)
      modifies this
      ensures stack == old(stack) + [x]
    {
      stack := stack + [x];
    }

    /** ( x -- ) removes and returns the top. */
    method Pop() returns (r: Result<Value, MemError>)
      modifies this
      ensures old(stack) == [] ==> r == Err(EmptyStack) && stack == old(stack)
      ensures old(stack) != [] ==>
        r == Ok(old(stack)[|old(stack)| - 1]) && stack == old(stack)[..|old(stack)| - 1]
    {
      if stack == [] {
        return Err(EmptyStack);
      }
      r := Ok(stack[|stack| - 1]);
      stack := stack[..|stack| - 1];
    }

    /** ( x -- x ) the top, without removing it. */
    function Top(): (r: Result<Value, MemError>)
      reads this
      ensures r.Ok? <==> stack != []
      ensures r.Ok? ==> stack == stack[..|stack| - 1] + [r.value]
    {
      if stack == [] then Err(EmptyStack) else Ok(stack[|stack| - 1])
    }

    /** ( x -- ) discards the top. */
    method Drop() returns (r: Outcome<MemError>)
      modifies this
      ensures old(stack) == [] ==> r == Fail(EmptyStack) && stack == old(stack)
      ensures old(stack) != [] ==> r == Pass && stack + [old(stack)[|old(stack)| - 1]] == old(stack)
    {
      if stack == [] {
        return Fail(EmptyStack);
      }
      stack := stack[..|stack| - 1];
      r := Pass;
    }

    /** ( ... -- ) */
    method Clear()
      modifies this
      ensures stack == []
    {
      stack := [];
    }
  }

  /** push(x) then pop() hands back x and leaves the stack as it was. */
  method PushThenPop(st: OperandStack, x: Value) returns (r: Result<Value, MemError>)
    modifies st
    ensures r == Ok(x) && st.stack == old(st.stack)
  {
    st.Push(x);
    r := st.Pop();
  }

  /** push(x) then top() sees x, and reading the top changes nothing. */
  method PushThenTop(st: OperandStack, x: Value) returns (r: Result<Value, MemError>)
    modifies st
    ensures r == Ok(x) && st.stack == old(st.stack) + [x]
  {
    st.Push(x);
    r := st.Top();
  }
}
