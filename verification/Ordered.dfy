/** Picking the elements of a set of integers in increasing order. */
module Ordered {

  lemma Inhabited(s: set<int>)
    requires s != {}
    ensures exists x :: x in s
  {
    if !exists x :: x in s { assert false; }
  }

  method Least(s: set<int>) returns (x: int)
    requires s != {}
    ensures x in s && forall y :: y in s ==> x <= y
  {
    Inhabited(s);
    x :| x in s;
    var todo := s - {x};
    while todo != {}
      invariant todo <= s && x in s
      invariant forall y :: y in s && y !in todo ==> x <= y
    {
      Inhabited(todo);
      var y :| y in todo;
      todo := todo - {y};
      if y < x { x := y; }
    }
  }
}
