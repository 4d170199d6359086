/** Finite sums and single-row lookups over sets of row identifiers. */
module Sums {
  type Id = nat

  datatype Option<+T> = None | Some(value: T)

  /** What SQLAlchemy's `scalar_one_or_none` makes of the set of matching rows. */
  datatype Lookup = NoRow | OneRow(id: Id) | ManyRows

  ghost function Single(rows: set<Id>): (r: Lookup)
    ensures r.NoRow? <==> rows == {}
    ensures r.OneRow? ==> rows == {r.id}
    ensures r.ManyRows? <==> exists x, y :: x in rows && y in rows && x != y
  {
    if rows == {} then NoRow
    else
      var x :| x in rows;
      if rows == {x} then OneRow(x)
      else
        assert rows != {} + {x};
        assert exists y :: y in rows && y != x;
        ManyRows
  }

  /** The sum of `f` over `s`. */
  ghost function Total(s: set<Id>, f: map<Id, int>): int
    requires s <= f.Keys
  {
    if s == {} then 0 else var x :| x in s; f[x] + Total(s - {x}, f)
  }

  /** The order in which a sum takes its terms does not matter. */
  lemma {:induction false} TotalExtract(s: set<Id>, f: map<Id, int>, x: Id)
    requires s <= f.Keys && x in s
    ensures Total(s, f) == f[x] + Total(s - {x}, f)
  {
    var y :| y in s && Total(s, f) == f[y] + Total(s - {y}, f);
    if y != x {
      TotalExtract(s - {y}, f, x);
      TotalExtract(s - {x}, f, y);
      assert s - {y} - {x} == s - {x} - {y};
    }
  }

  lemma TotalInsert(s: set<Id>, f: map<Id, int>, x: Id)
    requires s <= f.Keys && x in f && x !in s
    ensures Total(s + {x}, f) == Total(s, f) + f[x]
  {
    TotalExtract(s + {x}, f, x);
    assert s + {x} - {x} == s;
  }

  lemma {:induction false} TotalSame(s: set<Id>, f: map<Id, int>, g: map<Id, int>)
    requires s <= f.Keys && s <= g.Keys
    requires forall x :: x in s ==> f[x] == g[x]
    ensures Total(s, f) == Total(s, g)
  {
    if s != {} {
      var x :| x in s;
      TotalExtract(s, f, x);
      TotalExtract(s, g, x);
      TotalSame(s - {x}, f, g);
    }
  }

  lemma {:induction false} TotalMonotone(s: set<Id>, u: set<Id>, f: map<Id, int>)
    requires s <= u <= f.Keys
    requires forall x :: x in u ==> f[x] >= 0
    ensures 0 <= Total(s, f) <= Total(u, f)
    decreases u
  {
    if u != {} {
      var x :| x in u;
      TotalExtract(u, f, x);
      if x in s { TotalExtract(s, f, x); TotalMonotone(s - {x}, u - {x}, f); }
      else { TotalMonotone(s, u - {x}, f); }
    }
  }

  lemma {:induction false} TotalSplit(s: set<Id>, u: set<Id>, f: map<Id, int>)
    requires s !! u && s + u <= f.Keys
    ensures Total(s + u, f) == Total(s, f) + Total(u, f)
  {
    if u == {} {
      assert s + u == s;
    } else {
      var x :| x in u;
      TotalSplit(s, u - {x}, f);
      assert s + (u - {x}) + {x} == s + u;
      TotalInsert(s + (u - {x}), f, x);
      TotalExtract(u, f, x);
    }
  }

  function Image(s: set<Id>, h: map<Id, Id>): set<Id>
    requires s <= h.Keys
  {
    set x | x in s :: h[x]
  }

  /** A sum may be taken over the images of an injection instead. */
  lemma {:induction false} TotalReindex(s: set<Id>, f: map<Id, int>, h: map<Id, Id>, g: map<Id, int>)
    requires s <= f.Keys && s <= h.Keys && Image(s, h) <= g.Keys
    requires forall x, y :: x in s && y in s && h[x] == h[y] ==> x == y
    requires forall x :: x in s ==> f[x] == g[h[x]]
    ensures Total(s, f) == Total(Image(s, h), g)
  {
    if s != {} {
      var x :| x in s;
      assert Image(s, h) - {h[x]} == Image(s - {x}, h);
      TotalReindex(s - {x}, f, h, g);
      TotalExtract(s, f, x);
      TotalExtract(Image(s, h), g, h[x]);
    }
  }
}
