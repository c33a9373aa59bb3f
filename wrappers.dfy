/** Option and Result, the two failure-carrying shapes the model uses. */
module Wrappers {

  datatype Option<+T> = None | Some(value: T) {
    function GetOr(default: T): T {
      match this
      case Some(v) => v
      case None => default
    }

    /** The value as a sequence of zero or one elements. */
    function ToSeq(): (r: seq<T>)
      ensures |r| <= 1 && (r == [] <==> None?)
      ensures Some? ==> r == [value]
    {
      if Some? then [value] else []
    }
  }

  datatype Result<+R, +E> = Success(value: R) | Failure(error: E)

  /** The values of the Some entries of os, in order. */
  function Somes<T>(os: seq<Option<T>>): (r: seq<T>)
    ensures |r| <= |os|
    decreases |os|
  {
    if os == [] then [] else Somes(os[..|os| - 1]) + os[|os| - 1].ToSeq()
  }

  lemma SomesSnoc<T>(os: seq<Option<T>>, o: Option<T>)
    ensures Somes(os + [o]) == Somes(os) + o.ToSeq()
  {
    assert (os + [o])[..|os|] == os;
  }

  lemma {:induction false} SomesAppend<T>(os: seq<Option<T>>, qs: seq<Option<T>>)
    ensures Somes(os + qs) == Somes(os) + Somes(qs)
    decreases |qs|
  {
    if qs == [] {
      assert os + qs == os;
    } else {
      var q0 := qs[..|qs| - 1];
      var last := qs[|qs| - 1];
      assert qs == q0 + [last];
      calc {
        Somes(os + qs);
        { assert os + qs == (os + q0) + [last]; }
        Somes((os + q0) + [last]);
        { SomesSnoc(os + q0, last); }
        Somes(os + q0) + last.ToSeq();
        { SomesAppend(os, q0); }
        Somes(os) + Somes(q0) + last.ToSeq();
        { SomesSnoc(q0, last); }
        Somes(os) + Somes(qs);
      }
    }
  }

  /** A value is kept iff some entry holds it. */
  lemma {:induction false} SomesMember<T>(os: seq<Option<T>>, v: T)
    ensures v in Somes(os) <==> exists i | 0 <= i < |os| :: os[i] == Some(v)
    decreases |os|
  {
    if os != [] {
      var init := os[..|os| - 1];
      SomesMember(init, v);
      assert forall i | 0 <= i < |init| :: init[i] == os[i];
      if exists i | 0 <= i < |os| :: os[i] == Some(v) {
        var i :| 0 <= i < |os| && os[i] == Some(v);
        if i < |init| {
          assert init[i] == Some(v);
        }
      }
    }
  }

  /** Nothing is kept when every entry is None; everything is kept when every entry is Some. */
  lemma {:induction false} SomesExtremes<T>(os: seq<Option<T>>)
    ensures (forall i | 0 <= i < |os| :: os[i].None?) ==> Somes(os) == []
    ensures (forall i | 0 <= i < |os| :: os[i].Some?) ==> |Somes(os)| == |os|
    decreases |os|
  {
    if os != [] {
      var init := os[..|os| - 1];
      assert forall i | 0 <= i < |init| :: init[i] == os[i];
      SomesExtremes(init);
    }
  }
}
