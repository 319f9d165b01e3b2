/** The operand stack (RPNStack): a LIFO container over one array field. */
module RPNStack {
  import opened RPNErrors

  /** The stack holds values of any one type, as the PHP array does. */
  class Stack<T> {
    /** The `$stack` field, bottom first, top last. */
    var elems: seq<T>

    constructor ()
      ensures elems == []
    {
      elems := [];
    }

    /** Reset the stack to empty. */
    method Init()
      modifies this
      ensures elems == []
    {
      elems := [];
    }

    method IsEmpty() returns (empty: bool)
      ensures empty <==> |elems| == 0
    {
      empty := |elems| == 0;
    }

    /** Append to the top; everything below is kept. */
    method Push(v: T)
      modifies this
      ensures elems == old(elems) + [v]
    {
      elems := elems + [v];
    }

    /** Remove and return the top value, or fail with StackEmpty. */
    method Pop() returns (r: Result<T>)
      modifies this
      ensures old(elems) == [] ==> r == Fail(StackEmpty) && elems == []
      ensures old(elems) != [] ==>
                r == Ok(old(elems)[|old(elems)| - 1]) &&
                elems == old(elems)[..|old(elems)| - 1]
    {
      if |elems| == 0 {
        return Fail(StackEmpty);
      }
      r := Ok(elems[|elems| - 1]);
      elems := elems[..|elems| - 1];
    }

    /** A snapshot of the contents, bottom to top. */
    method ToArray() returns (a: seq<T>)
      ensures a == elems
    {
      a := elems;
    }
  }

  /** A client of the stack: a push followed by a pop hands back the pushed
      value and leaves the stack as it was. */
  method PushThenPop<T>(st: Stack<T>, v: T) returns (r: Result<T>)
    modifies st
    ensures r == Ok(v)
    ensures st.elems == old(st.elems)
  {
    st.Push(v);
    r := st.Pop();
    assert (old(st.elems) + [v])[..|old(st.elems)|] == old(st.elems);
  }

  /** A client of the stack: values come back in the reverse of the order in
      which they were pushed, and after `Init` a pop fails. */
  method PopOrder<T>(st: Stack<T>, a: T, b: T, c: T) returns (x: Result<T>, y: Result<T>, z: Result<T>, w: Result<T>)
    modifies st
    ensures x == Ok(c) && y == Ok(b) && z == Ok(a) && w == Fail(StackEmpty)
    ensures st.elems == []
  {
    st.Init();
    st.Push(a);
    st.Push(b);
    st.Push(c);
    x := st.Pop();
    y := st.Pop();
    z := st.Pop();
    w := st.Pop();
  }
}
