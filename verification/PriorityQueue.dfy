/** The standard min-heap, by its contract: `top` is some entry with the least key. */
module PriorityQueue {
  datatype Entry<T> = Entry(key: int, val: T)

  lemma {:induction false} LeastExists<T>(q: multiset<Entry<T>>)
    requires q != multiset{}
    ensures exists e :: e in q && forall x :: x in q ==> e.key <= x.key
    decreases |q|
  {
    var e :| e in q;
    var rest := q - multiset{e};
    assert forall x :: x in q ==> x == e || x in rest;
    if rest != multiset{} {
      LeastExists(rest);
      var f :| f in rest && forall x :: x in rest ==> f.key <= x.key;
      e := if e.key <= f.key then e else f;
    }
    assert e in q && forall x :: x in q ==> e.key <= x.key;
  }

  method PopMin<T(==)>(q: multiset<Entry<T>>) returns (top: Entry<T>, rest: multiset<Entry<T>>)
    requires q != multiset{}
    ensures top in q && rest == q - multiset{top}
    ensures forall x :: x in q ==> top.key <= x.key
  {
    LeastExists(q);
    top :| top in q && forall x :: x in q ==> top.key <= x.key;
    rest := q - multiset{top};
  }
}
