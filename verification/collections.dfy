/** Facts about finite sets of entity ids used when iterating over them. */
module Collections {

  /** A non-empty set has a member. */
  lemma HasMember(s: set<int>)
    requires s != {}
    ensures exists x :: x in s
  {
    if forall x :: x !in s {
      assert false;
    }
  }

  /** A non-empty set of ids has a least element, the one `sorted` yields first. */
  lemma {:induction false} HasLeast(s: set<int>)
    requires s != {}
    ensures exists m :: m in s && forall o :: o in s ==> m <= o
    decreases |s|
  {
    HasMember(s);
    var x :| x in s;
    var rest := s - {x};
    if rest == {} {
      assert s == rest + {x} == {x};
      assert x in s && forall o :: o in s ==> x <= o;
    } else {
      HasLeast(rest);
      var m :| m in rest && forall o :: o in rest ==> m <= o;
      var least := if x < m then x else m;
      forall o | o in s
        ensures least <= o
      {
        if o != x {
          assert o in rest;
        }
      }
      assert least in s;
    }
  }
}
