/** Target vectors keyed by symbol, their explicit cash leg, and the distance between two of them. */
module TargetVectors {
  import opened Common

  datatype Symbol = Symbol(name: string)
  type Vector = map<Symbol, real>

  const CASH := Symbol("CASH")

  /** A symbol that is not listed has weight zero. */
  function Weight(v: Vector, s: Symbol): real {
    if s in v then v[s] else 0.0
  }

  function Move(a: Vector, b: Vector, s: Symbol): real {
    AbsReal(Weight(a, s) - Weight(b, s))
  }

  // ---------------------------------------------------------------- sums over sets of symbols

  ghost function Total(v: Vector, s: set<Symbol>): real {
    if s == {} then 0.0 else var x :| x in s; Weight(v, x) + Total(v, s - {x})
  }

  ghost function L1(a: Vector, b: Vector, s: set<Symbol>): real {
    if s == {} then 0.0 else var x :| x in s; Move(a, b, x) + L1(a, b, s - {x})
  }

  /** Any element may be summed first, so the order of summation never matters. */
  lemma {:induction false} TotalPick(v: Vector, s: set<Symbol>, x: Symbol)
    requires x in s
    ensures Total(v, s) == Weight(v, x) + Total(v, s - {x})
    decreases s
  {
    var y :| y in s && Total(v, s) == Weight(v, y) + Total(v, s - {y});
    if y != x {
      TotalPick(v, s - {y}, x);
      TotalPick(v, s - {x}, y);
      assert s - {y} - {x} == s - {x} - {y};
    }
  }

  lemma {:induction false} L1Pick(a: Vector, b: Vector, s: set<Symbol>, x: Symbol)
    requires x in s
    ensures L1(a, b, s) == Move(a, b, x) + L1(a, b, s - {x})
    decreases s
  {
    var y :| y in s && L1(a, b, s) == Move(a, b, y) + L1(a, b, s - {y});
    if y != x {
      L1Pick(a, b, s - {y}, x);
      L1Pick(a, b, s - {x}, y);
      assert s - {y} - {x} == s - {x} - {y};
    }
  }

  // ---------------------------------------------------------------- the distance

  /** The sum of absolute weight moves over every symbol that either vector lists. */
  ghost function Distance(a: Vector, b: Vector): real {
    L1(a, b, a.Keys + b.Keys)
  }

  lemma {:induction false} L1Basics(a: Vector, b: Vector, s: set<Symbol>)
    ensures L1(a, b, s) >= 0.0 && L1(a, b, s) == L1(b, a, s) && L1(a, a, s) == 0.0
    decreases s
  {
    if s != {} {
      var x :| x in s;
      L1Pick(a, b, s, x);
      L1Pick(b, a, s, x);
      L1Pick(a, a, s, x);
      L1Basics(a, b, s - {x});
    }
  }

  lemma {:induction false} L1Triangle(a: Vector, b: Vector, c: Vector, s: set<Symbol>)
    ensures L1(a, c, s) <= L1(a, b, s) + L1(b, c, s)
    decreases s
  {
    if s != {} {
      var x :| x in s;
      L1Pick(a, c, s, x);
      L1Pick(a, b, s, x);
      L1Pick(b, c, s, x);
      L1Triangle(a, b, c, s - {x});
    }
  }

  /** Symbols that neither vector lists add nothing. */
  lemma {:induction false} L1Widens(a: Vector, b: Vector, s: set<Symbol>)
    requires a.Keys + b.Keys <= s
    ensures L1(a, b, s) == Distance(a, b)
    decreases s
  {
    if s != a.Keys + b.Keys {
      var x :| x in s && x !in a.Keys + b.Keys;
      L1Pick(a, b, s, x);
      L1Widens(a, b, s - {x});
    }
  }

  lemma DistanceBasics(a: Vector, b: Vector)
    ensures Distance(a, b) >= 0.0 && Distance(a, b) == Distance(b, a) && Distance(a, a) == 0.0
  {
    L1Basics(a, b, a.Keys + b.Keys);
    L1Basics(a, a, a.Keys + a.Keys);
    assert a.Keys + b.Keys == b.Keys + a.Keys;
  }

  lemma DistanceTriangle(a: Vector, b: Vector, c: Vector)
    ensures Distance(a, c) <= Distance(a, b) + Distance(b, c)
  {
    var s := a.Keys + b.Keys + c.Keys;
    L1Triangle(a, b, c, s);
    L1Widens(a, c, s);
    L1Widens(a, b, s);
    L1Widens(b, c, s);
  }

  /** Changing one weight moves a vector by exactly that change. */
  lemma OneWeightMoves(a: Vector, s: Symbol, w: real)
    ensures Distance(a, a[s := w]) == AbsReal(Weight(a, s) - w)
  {
    var b := a[s := w];
    var keys := a.Keys + b.Keys;
    L1Pick(a, b, keys, s);
    L1Agrees(a, b, a, a, keys - {s});
    L1Basics(a, a, keys - {s});
  }

  // ---------------------------------------------------------------- the explicit cash leg

  /** What is not invested is held as the symbol CASH. */
  ghost function WithCash(v: Vector): Vector {
    v[CASH := 1.0 - Total(v, v.Keys)]
  }

  lemma {:induction false} TotalWidens(v: Vector, s: set<Symbol>)
    requires v.Keys <= s
    ensures Total(v, s) == Total(v, v.Keys)
    decreases s
  {
    if s != v.Keys {
      var x :| x in s && x !in v.Keys;
      TotalPick(v, s, x);
      TotalWidens(v, s - {x});
    }
  }

  lemma {:induction false} L1Agrees(a: Vector, b: Vector, c: Vector, d: Vector, s: set<Symbol>)
    requires forall x :: x in s ==> Weight(a, x) == Weight(c, x) && Weight(b, x) == Weight(d, x)
    ensures L1(a, b, s) == L1(c, d, s)
    decreases s
  {
    if s != {} {
      var x :| x in s;
      L1Pick(a, b, s, x);
      L1Pick(c, d, s, x);
      L1Agrees(a, b, c, d, s - {x});
    }
  }

  /** With cash listed, the distance is the risky distance plus the change in total invested weight. */
  lemma CashLeg(a: Vector, b: Vector)
    requires CASH !in a && CASH !in b
    ensures Distance(WithCash(a), WithCash(b)) == Distance(a, b) + AbsReal(Total(a, a.Keys) - Total(b, b.Keys))
  {
    var c, d := WithCash(a), WithCash(b);
    var s := a.Keys + b.Keys;
    assert c.Keys + d.Keys == s + {CASH};
    L1Pick(c, d, s + {CASH}, CASH);
    assert s + {CASH} - {CASH} == s;
    L1Agrees(c, d, a, b, s);
  }
}
