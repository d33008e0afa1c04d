/** The buffer of a recv: resizing it to a message, and which error it reports. */
module Operation {
  import opened Common
  import opened Scheduler

  lemma WholeElements(size: nat, elem: nat)
    requires elem > 0
    ensures size % elem == 0 <==> size / elem * elem == size
  {
    assert size == elem * (size / elem) + size % elem;
  }

  lemma NoMultiple(count: nat, elem: nat, size: nat)
    requires elem > 0 && count * elem == size
    ensures size % elem == 0
  {
    assert size == elem * (size / elem) + size % elem;
    var d := count - size / elem;
    assert elem * d == size % elem;
    Multiples(elem, d);
  }

  lemma Multiples(elem: nat, d: int)
    requires elem > 0
    ensures d >= 1 ==> elem * d >= elem
    ensures d <= -1 ==> elem * d + elem <= 0
  {
  }

  /** RefRecvBuffer over a container of `count` elements of `elem` bytes. */
  class RefRecvBuffer {
    const elem: nat
    const allowResize: bool
    var count: nat
    var reporting: bool         // mExPtr is still set
    var error: Option<Code>     // what the caller's exception holds

    constructor (elem: nat, count: nat, allowResize: bool)
      requires elem > 0
      ensures this.elem == elem && this.count == count && this.allowResize == allowResize
      ensures reporting && error == None
    {
      this.elem, this.count, this.allowResize := elem, count, allowResize;
      reporting, error := true, None;
    }

    /** The buffer as the receive task sees it. */
    function Shape(): Buffer
      reads this
    {
      if allowResize then Resizable(elem) else Fixed(count * elem)
    }

    /** asSpan: the span has the size of the message exactly when the message fits;
        otherwise the bad size is reported and no later error can replace it. */
    method AsSpan(size: nat) returns (span: nat)
      requires elem > 0 && reporting && error == None
      modifies this
      ensures span == count * elem
      ensures span == size <==> Fits(old(Shape()), size)
      ensures span == size ==> reporting && error == None
      ensures span != size ==> !reporting && error == Some(BadBufferSize) && count == old(count)
      ensures !allowResize ==> count == old(count)
    {
      WholeElements(size, elem);
      if allowResize && size % elem == 0 {
        count := size / elem;
      }
      span := count * elem;
      if span == size {
        NoMultiple(count, elem, size);
      } else {
        error, reporting := Some(BadBufferSize), false;
      }
    }

    method SetError(e: Code)
      modifies this`error
      ensures error == if reporting then Some(e) else old(error)
    {
      if reporting {
        error := Some(e);
      }
    }

    /** A recv whose buffer does not fit keeps the bad size as its error even though its
        operation is then completed with another code. */
    method RejectMessage(size: nat, later: Code)
      requires elem > 0 && reporting && error == None && !Fits(Shape(), size)
      modifies this
      ensures error == Some(BadBufferSize)
    {
      var span := AsSpan(size);
      SetError(later);
    }
  }
}
