/** The machine's arithmetic: division cuts off toward zero, and every operator means what the
    evaluator says. */
module Arithmetic {
  import opened Machine
  import opened Syntax
  import opened Eval

  /** q and r are the quotient and the remainder of a by b in C: what is left is smaller than the
      divisor and has the sign of the dividend. */
  ghost predicate Division(a: int, b: int, q: int, r: int) {
    a == q * b + r && Abs(r) < Abs(b) && (r == 0 || (r < 0) == (a < 0))
  }

  ghost predicate Is64(i: int) { -0x8000_0000_0000_0000 <= i < 0x8000_0000_0000_0000 }

  /** There is only one quotient and remainder. */
  lemma OneDivision(a: int, b: int, q: int, r: int, q': int, r': int)
    requires Division(a, b, q, r) && Division(a, b, q', r')
    ensures q == q' && r == r'
  {
    Apart(r, r', b);
    Distribute(q, q', b);
    if q != q' { Multiple(q - q', b); }
  }

  lemma Distribute(x: int, y: int, b: int)
    ensures (x - y) * b == x * b - y * b
  {
  }

  lemma Apart(r: int, r': int, b: int)
    requires Abs(r) < Abs(b) && Abs(r') < Abs(b) && ((r <= 0 && r' <= 0) || (r >= 0 && r' >= 0))
    ensures Abs(r' - r) < Abs(b)
  {
  }

  /** A multiple of b other than 0 is at least as large as b. */
  lemma Multiple(d: int, b: int)
    requires d != 0
    ensures Abs(d * b) >= Abs(b)
  {
    var n := Abs(d) - 1;
    var m := Abs(b);
    assert Abs(d * b) == (n + 1) * m by {
      if d > 0 { assert d * b == (n + 1) * b; } else { assert d * b == -((n + 1) * b); }
      if b >= 0 { assert (n + 1) * b == (n + 1) * m; } else { assert (n + 1) * b == -((n + 1) * m); }
      Product(n + 1, m);
    }
    Distribute(n + 1, 1, m);
    Product(n, m);
  }

  lemma Product(n: nat, m: nat)
    ensures n * m >= 0
  {
  }

  lemma TruncDivides(a: int, b: int)
    requires b != 0
    ensures Division(a, b, TruncDiv(a, b), a - TruncDiv(a, b) * b)
  {
    var n, m := Abs(a), Abs(b);
    assert n == n / m * m + n % m;
    if (a < 0) == (b < 0) {
      if b < 0 { assert n / m * b == -(n / m * m); }
    } else {
      if b < 0 { assert -(n / m) * b == n / m * m; } else { assert -(n / m) * b == -(n / m * m); }
    }
  }

  lemma EuclidDivides(a: int, b: int)
    requires b != 0
    ensures Division(a, b, if a >= 0 then a / b else -(-a / b), if a >= 0 then a % b else -(-a % b))
  {
    var n := Abs(a);
    assert n == n / b * b + n % b;
    if a < 0 { assert -(n / b) * b == -(n / b * b); }
  }

  /** The machine computes what the evaluator means by every operator. */
  lemma MathAgrees(m: MathOp, a: int, b: int)
    ensures MathVal(m, SFixnum(a), SFixnum(b)) == match Arith(m, a, b)
      case Some(Fixnum(i)) => Some(SFixnum(i))
      case Some(Bool(t)) => Some(SBool(t))
      case _ => None
    ensures MathVal(m, SFixnum(a), SFixnum(b)).None? <==> Arith(m, a, b).None?
  {
    if (m.Div? || m.Mod?) && b != 0 {
      hide Division, TruncDiv;
      TruncDivides(a, b);
      EuclidDivides(a, b);
      OneDivision(a, b, TruncDiv(a, b), a - TruncDiv(a, b) * b,
                  if a >= 0 then a / b else -(-a / b), if a >= 0 then a % b else -(-a % b));
    }
  }

  lemma QuotientRange(a: int, b: int)
    requires Is64(a) && Is64(b) && b != 0 && !(a == -0x8000_0000_0000_0000 && b == -1)
    ensures Is64(TruncDiv(a, b)) && Is64(a - TruncDiv(a, b) * b)
  {
    TruncDivides(a, b);
    RemainderRange(a - TruncDiv(a, b) * b, b);
    if b == 1 || b == -1 { UnitQuotient(a, b); } else {
      QuotientSize(a, b);
      Halve(Abs(a), Abs(b));
      HalfRange(a, TruncDiv(a, b));
    }
    hide *;
  }

  lemma RemainderRange(r: int, b: int)
    requires Abs(r) < Abs(b) && Is64(b)
    ensures Is64(r)
  {
  }

  lemma HalfRange(a: int, q: int)
    requires Is64(a) && Abs(q) <= Abs(a) / 2
    ensures Is64(q)
  {
  }

  lemma UnitQuotient(a: int, b: int)
    requires b == 1 || b == -1
    ensures TruncDiv(a, b) == if b == 1 then a else -a
  {
  }

  lemma QuotientSize(a: int, b: int)
    requires b != 0
    ensures Abs(TruncDiv(a, b)) == Abs(a) / Abs(b)
  {
    NotBelow(Abs(a), Abs(b));
    hide Abs;
    assert TruncDiv(a, b) == Abs(a) / Abs(b) || TruncDiv(a, b) == -(Abs(a) / Abs(b));
    hide TruncDiv;
    AbsOf(TruncDiv(a, b), Abs(a) / Abs(b));
  }

  lemma AbsOf(x: int, n: int)
    requires n >= 0 && (x == n || x == -n)
    ensures Abs(x) == n
  {
  }

  lemma NotBelow(n: nat, m: nat)
    requires m > 0
    ensures n / m >= 0
  {
  }

  lemma Halve(n: nat, m: nat)
    requires m >= 2
    ensures n / m <= n / 2
  {
    if n / m > n / 2 {
      assert n == n / m * m + n % m;
      Distribute(m, 2, n / m);
      Product(n / m, m - 2);
    }
  }

  /** Division of 64-bit integers is undefined by 0 and for the one quotient that does not fit;
      otherwise quotient and remainder are the ones of C, and there are no others. */
  lemma DivisionLaw(a: int, b: int)
    requires Is64(a) && Is64(b)
    ensures var ok := b != 0 && !(a == -0x8000_0000_0000_0000 && b == -1);
      var q, r := Arith(Div, a, b), Arith(Mod, a, b);
      && (q.Some? <==> ok) && (r.Some? <==> ok)
      && (ok ==> q.value.Fixnum? && r.value.Fixnum? && Division(a, b, q.value.i, r.value.i))
      && (ok ==> forall i, j :: Division(a, b, i, j) ==> i == q.value.i && j == r.value.i)
  {
    hide Division;
    if b != 0 {
      TruncDivides(a, b);
      if !(a == -0x8000_0000_0000_0000 && b == -1) { QuotientRange(a, b); }
      hide TruncDiv;
      var q := TruncDiv(a, b);
      forall i, j | Division(a, b, i, j) ensures i == q && j == a - q * b { OneDivision(a, b, q, a - q * b, i, j); }
    }
  }
}
