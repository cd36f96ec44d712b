/** What several threads did, in order, and what one of them did. */
module Traces {

  datatype Did<A> = Did(t: nat, a: A)

  function One<A>(d: Did<A>, t: nat): seq<A> {
    if d.t == t then [d.a] else []
  }

  function LogOf<A>(tr: seq<Did<A>>, t: nat): seq<A> {
    if tr == [] then [] else One(tr[0], t) + LogOf(tr[1..], t)
  }

  lemma {:induction false} LogOfConcat<A>(a: seq<Did<A>>, b: seq<Did<A>>, t: nat)
    ensures LogOf(a + b, t) == LogOf(a, t) + LogOf(b, t)
  {
    hide One;
    if a == [] {
      assert a + b == b;
    } else {
      LogOfConcat(a[1..], b, t);
      assert (a + b)[0] == a[0] && (a + b)[1..] == a[1..] + b;
      assert One(a[0], t) + (LogOf(a[1..], t) + LogOf(b, t)) == One(a[0], t) + LogOf(a[1..], t) + LogOf(b, t);
    }
  }

  lemma LogOfOne<A>(d: Did<A>, t: nat)
    ensures LogOf([d], t) == One(d, t)
  {
    assert [d][1..] == [];
  }
}
