/** Quaternions: in-place multiplication, possibly of an object with itself. */
module Quaternions {
  import opened Arithmetic

  datatype Value = Value(a: real, b: real, c: real, d: real)

  datatype Vector3 = Vector3(x: real, y: real, z: real)

  /** The Hamilton product in scalar and vector parts:
      (s + u)(t + v) = (s t - u.v) + (s v + t u + u x v). */
  function Product(p: Value, q: Value): Value {
    var s, u := p.a, Vector3(p.b, p.c, p.d);
    var t, v := q.a, Vector3(q.b, q.c, q.d);
    var w := Cross(u, v);
    Value(Times(s, t) - Dot(u, v), Times(s, v.x) + Times(u.x, t) + w.x,
          Times(s, v.y) + Times(u.y, t) + w.y, Times(s, v.z) + Times(u.z, t) + w.z)
  }

  function Dot(u: Vector3, v: Vector3): real {
    Times(u.x, v.x) + Times(u.y, v.y) + Times(u.z, v.z)
  }

  function Cross(u: Vector3, v: Vector3): Vector3 {
    Vector3(Times(u.y, v.z) - Times(u.z, v.y), Times(u.z, v.x) - Times(u.x, v.z), Times(u.x, v.y) - Times(u.y, v.x))
  }

  function NormSquared(p: Value): real {
    SumOfSquares(p.a, p.b, p.c, p.d)
  }

  function SumOfSquares(a: real, b: real, c: real, d: real): real {
    a * a + b * b + c * c + d * d
  }

  const I := Value(0.0, 1.0, 0.0, 0.0)
  const J := Value(0.0, 0.0, 1.0, 0.0)
  const K := Value(0.0, 0.0, 0.0, 1.0)
  const MINUS_ONE := Value(-1.0, 0.0, 0.0, 0.0)

  /** The product component by component. */
  lemma Terms(p: Value, q: Value)
    ensures Product(p, q) == Value(
      Times(p.a, q.a) - Times(p.b, q.b) - Times(p.c, q.c) - Times(p.d, q.d),
      Times(p.a, q.b) + Times(p.b, q.a) + Times(p.c, q.d) - Times(p.d, q.c),
      Times(p.a, q.c) - Times(p.b, q.d) + Times(p.c, q.a) + Times(p.d, q.b),
      Times(p.a, q.d) + Times(p.b, q.c) - Times(p.c, q.b) + Times(p.d, q.a))
  {
    hide Times;
  }

  lemma Components(p: Value, q: Value)
    ensures Product(p, q).a == p.a * q.a - p.b * q.b - p.c * q.c - p.d * q.d
    ensures Product(p, q).b == p.a * q.b + p.b * q.a + p.c * q.d - p.d * q.c
    ensures Product(p, q).c == p.a * q.c - p.b * q.d + p.c * q.a + p.d * q.b
    ensures Product(p, q).d == p.a * q.d + p.b * q.c - p.c * q.b + p.d * q.a
  {
    hide Product;
    Terms(p, q);
  }

  /** The product with every term's factors exchanged, as the program writes them. */
  lemma ReversedOperands(p: Value, q: Value)
    ensures Product(p, q) == Value(
      Times(q.a, p.a) - Times(q.b, p.b) - Times(q.c, p.c) - Times(q.d, p.d),
      Times(q.a, p.b) + Times(q.b, p.a) - Times(q.c, p.d) + Times(q.d, p.c),
      Times(q.a, p.c) + Times(q.b, p.d) + Times(q.c, p.a) - Times(q.d, p.b),
      Times(q.a, p.d) - Times(q.b, p.c) + Times(q.c, p.b) + Times(q.d, p.a))
  {
    hide Product;
    Terms(p, q);
  }

  function Plus(p: Value, q: Value): Value {
    Value(p.a + q.a, p.b + q.b, p.c + q.c, p.d + q.d)
  }

  function Scaled(x: real, p: Value): Value {
    Value(Times(x, p.a), Times(x, p.b), Times(x, p.c), Times(x, p.d))
  }

  /** The product is additive on the left. */
  lemma AddsLeft(p: Value, q: Value, r: Value)
    ensures Product(Plus(p, q), r) == Plus(Product(p, r), Product(q, r))
  {
    hide Product;
    Components(p, r);
    Components(q, r);
    Components(Plus(p, q), r);
  }

  /** The product is additive on the right. */
  lemma AddsRight(p: Value, q: Value, r: Value)
    ensures Product(r, Plus(p, q)) == Plus(Product(r, p), Product(r, q))
  {
    hide Product;
    Components(r, p);
    Components(r, q);
    Components(r, Plus(p, q));
  }

  lemma ThreeMinus(x: real, t: real, a: real, b: real, c: real, d: real, e: real, f: real, g: real, h: real)
    requires t == Times(a, e) - Times(b, f) - Times(c, g) - Times(d, h)
    ensures Times(Times(x, a), e) - Times(Times(x, b), f) - Times(Times(x, c), g) - Times(Times(x, d), h)
         == Times(x, t)
    ensures Times(a, Times(x, e)) - Times(b, Times(x, f)) - Times(c, Times(x, g)) - Times(d, Times(x, h))
         == Times(x, t)
  {
  }

  lemma OneMinus(x: real, t: real, a: real, b: real, c: real, d: real, e: real, f: real, g: real, h: real)
    requires t == Times(a, e) + Times(b, f) + Times(c, g) - Times(d, h)
    ensures Times(Times(x, a), e) + Times(Times(x, b), f) + Times(Times(x, c), g) - Times(Times(x, d), h)
         == Times(x, t)
    ensures Times(a, Times(x, e)) + Times(b, Times(x, f)) + Times(c, Times(x, g)) - Times(d, Times(x, h))
         == Times(x, t)
  {
  }

  /** The product is homogeneous in both factors. */
  lemma Scales(x: real, p: Value, q: Value)
    ensures Product(Scaled(x, p), q) == Scaled(x, Product(p, q))
    ensures Product(p, Scaled(x, q)) == Scaled(x, Product(p, q))
  {
    hide Product, Times;
    Terms(p, q);
    Terms(Scaled(x, p), q);
    Terms(p, Scaled(x, q));
    ThreeMinus(x, Product(p, q).a, p.a, p.b, p.c, p.d, q.a, q.b, q.c, q.d);
    OneMinus(x, Product(p, q).b, p.a, p.b, p.c, p.d, q.b, q.a, q.d, q.c);
    OneMinus(x, Product(p, q).c, p.a, p.c, p.d, p.b, q.c, q.a, q.b, q.d);
    OneMinus(x, Product(p, q).d, p.a, p.b, p.d, p.c, q.d, q.c, q.a, q.b);
  }

  /** Hamilton's relations. With additivity and homogeneity they define the product; it
      does not commute. */
  lemma HamiltonRelations()
    ensures Product(I, I) == MINUS_ONE && Product(J, J) == MINUS_ONE && Product(K, K) == MINUS_ONE
    ensures Product(Product(I, J), K) == MINUS_ONE && Product(I, J) != Product(J, I)
  {
    Components(I, I);
    Components(J, J);
    Components(K, K);
    Components(I, J);
    Components(J, I);
    hide Product;
    assert Product(I, J) == K;
  }

  /** Associativity, one component at a time: all terms are products of three factors. */
  lemma AssociativeA(
      a: real, b: real, c: real, d: real, e: real, f: real, g: real, h: real, i: real, j: real, k: real, l: real)
    ensures (a*e - b*f - c*g - d*h)*i - (a*f + b*e + c*h - d*g)*j
            - (a*g - b*h + c*e + d*f)*k - (a*h + b*g - c*f + d*e)*l
         == a*(e*i - f*j - g*k - h*l) - b*(e*j + f*i + g*l - h*k)
            - c*(e*k - f*l + g*i + h*j) - d*(e*l + f*k - g*j + h*i)
  {
  }

  lemma AssociativeB(
      a: real, b: real, c: real, d: real, e: real, f: real, g: real, h: real, i: real, j: real, k: real, l: real)
    ensures (a*e - b*f - c*g - d*h)*j + (a*f + b*e + c*h - d*g)*i
            + (a*g - b*h + c*e + d*f)*l - (a*h + b*g - c*f + d*e)*k
         == a*(e*j + f*i + g*l - h*k) + b*(e*i - f*j - g*k - h*l)
            + c*(e*l + f*k - g*j + h*i) - d*(e*k - f*l + g*i + h*j)
  {
  }

  lemma AssociativeC(
      a: real, b: real, c: real, d: real, e: real, f: real, g: real, h: real, i: real, j: real, k: real, l: real)
    ensures (a*e - b*f - c*g - d*h)*k - (a*f + b*e + c*h - d*g)*l
            + (a*g - b*h + c*e + d*f)*i + (a*h + b*g - c*f + d*e)*j
         == a*(e*k - f*l + g*i + h*j) - b*(e*l + f*k - g*j + h*i)
            + c*(e*i - f*j - g*k - h*l) + d*(e*j + f*i + g*l - h*k)
  {
  }

  lemma AssociativeD(
      a: real, b: real, c: real, d: real, e: real, f: real, g: real, h: real, i: real, j: real, k: real, l: real)
    ensures (a*e - b*f - c*g - d*h)*l + (a*f + b*e + c*h - d*g)*k
            - (a*g - b*h + c*e + d*f)*j + (a*h + b*g - c*f + d*e)*i
         == a*(e*l + f*k - g*j + h*i) + b*(e*k - f*l + g*i + h*j)
            - c*(e*j + f*i + g*l - h*k) + d*(e*i - f*j - g*k - h*l)
  {
  }

  lemma SameA(p: Value, q: Value, r: Value)
    ensures Product(Product(p, q), r).a == Product(p, Product(q, r)).a
  {
    hide Product;
    Components(p, q);
    Components(q, r);
    Components(Product(p, q), r);
    Components(p, Product(q, r));
    AssociativeA(p.a, p.b, p.c, p.d, q.a, q.b, q.c, q.d, r.a, r.b, r.c, r.d);
  }

  lemma SameB(p: Value, q: Value, r: Value)
    ensures Product(Product(p, q), r).b == Product(p, Product(q, r)).b
  {
    hide Product;
    Components(p, q);
    Components(q, r);
    Components(Product(p, q), r);
    Components(p, Product(q, r));
    AssociativeB(p.a, p.b, p.c, p.d, q.a, q.b, q.c, q.d, r.a, r.b, r.c, r.d);
  }

  lemma SameC(p: Value, q: Value, r: Value)
    ensures Product(Product(p, q), r).c == Product(p, Product(q, r)).c
  {
    hide Product;
    Components(p, q);
    Components(q, r);
    Components(Product(p, q), r);
    Components(p, Product(q, r));
    AssociativeC(p.a, p.b, p.c, p.d, q.a, q.b, q.c, q.d, r.a, r.b, r.c, r.d);
  }

  lemma SameD(p: Value, q: Value, r: Value)
    ensures Product(Product(p, q), r).d == Product(p, Product(q, r)).d
  {
    hide Product;
    Components(p, q);
    Components(q, r);
    Components(Product(p, q), r);
    Components(p, Product(q, r));
    AssociativeD(p.a, p.b, p.c, p.d, q.a, q.b, q.c, q.d, r.a, r.b, r.c, r.d);
  }

  lemma ProductAssociative(p: Value, q: Value, r: Value)
    ensures Product(Product(p, q), r) == Product(p, Product(q, r))
  {
    hide Product;
    SameA(p, q, r);
    SameB(p, q, r);
    SameC(p, q, r);
    SameD(p, q, r);
  }

  lemma FourSquares(a: real, b: real, c: real, d: real, e: real, f: real, g: real, h: real)
    ensures SumOfSquares(a*e - b*f - c*g - d*h, a*f + b*e + c*h - d*g, a*g - b*h + c*e + d*f, a*h + b*g - c*f + d*e)
         == SumOfSquares(a, b, c, d) * SumOfSquares(e, f, g, h)
  {
  }

  lemma NormMultiplicative(p: Value, q: Value)
    ensures NormSquared(Product(p, q)) == Times(NormSquared(p), NormSquared(q))
  {
    hide Product, SumOfSquares;
    Components(p, q);
    FourSquares(p.a, p.b, p.c, p.d, q.a, q.b, q.c, q.d);
  }

  function Fold(p: Value, qs: seq<Value>): Value {
    if qs == [] then p else Product(Fold(p, qs[..|qs| - 1]), qs[|qs| - 1])
  }

  function NormProduct(qs: seq<Value>): real {
    if qs == [] then 1.0 else Times(NormProduct(qs[..|qs| - 1]), NormSquared(qs[|qs| - 1]))
  }

  /** Multiplying through any sequence of quaternions multiplies the squared norms. */
  lemma {:induction false} FoldMultipliesNorms(p: Value, qs: seq<Value>)
    ensures NormSquared(Fold(p, qs)) == Times(NormSquared(p), NormProduct(qs))
  {
    if qs != [] {
      hide NormSquared, Product, Times;
      var init, q := qs[..|qs| - 1], qs[|qs| - 1];
      FoldMultipliesNorms(p, init);
      NormMultiplicative(Fold(p, init), q);
      Reassociate(NormSquared(p), NormProduct(init), NormSquared(q));
    }
  }

  lemma Reassociate(a: real, b: real, c: real)
    ensures Times(Times(a, b), c) == Times(a, Times(b, c))
  {
  }

  class Quaternion {
    const elements: array<real>

    ghost predicate Valid()
      reads this
    {
      elements.Length == 4
    }

    ghost function Contents(): Value
      requires Valid()
      reads this, elements
    {
      Value(elements[0], elements[1], elements[2], elements[3])
    }

    constructor (a: real, b: real, c: real, d: real)
      ensures Valid() && Contents() == Value(a, b, c, d) && fresh(elements)
    {
      elements := new real[] [a, b, c, d];
    }

    /** `rhs` may be this very object. */
    method MultiplyBy(rhs: Quaternion)
      requires Valid() && rhs.Valid()
      modifies elements
      ensures Contents() == Product(old(Contents()), old(rhs.Contents()))
    {
      hide Product, Times;
      var a := Times(rhs.elements[0], elements[0]) - Times(rhs.elements[1], elements[1])
        - Times(rhs.elements[2], elements[2]) - Times(rhs.elements[3], elements[3]);
      var b := Times(rhs.elements[0], elements[1]) + Times(rhs.elements[1], elements[0])
        - Times(rhs.elements[2], elements[3]) + Times(rhs.elements[3], elements[2]);
      var c := Times(rhs.elements[0], elements[2]) + Times(rhs.elements[1], elements[3])
        + Times(rhs.elements[2], elements[0]) - Times(rhs.elements[3], elements[1]);
      var d := Times(rhs.elements[0], elements[3]) - Times(rhs.elements[1], elements[2])
        + Times(rhs.elements[2], elements[1]) + Times(rhs.elements[3], elements[0]);
      ReversedOperands(Contents(), rhs.Contents());
      elements[0] := a;
      elements[1] := b;
      elements[2] := c;
      elements[3] := d;
    }
  }
}
