/** The anchor round: which anchors transmit, and the pooling of what only one of them
    reaches into groups, which no score can tell from listing every member. */
module AnchorRound {
  import opened Keys
  import opened Scoring

  // ---------------------------------------------------------------- admission

  /** An anchor the seeds reach: the mass they fund it with, its degree, and whether the
      query named it. */
  datatype Anchor = Anchor(key: Key, mass: real, degree: nat, named: bool)

  function TotalMass(s: seq<Anchor>): real { if s == [] then 0.0 else TotalMass(s[..|s| - 1]) + s[|s| - 1].mass }

  function TotalDegree(s: seq<Anchor>): nat { if s == [] then 0 else TotalDegree(s[..|s| - 1]) + s[|s| - 1].degree }

  const DEPTH_ONE_ADMISSION := 2

  /** The bar at a depth: twice the fair share at depth 1, the fair share itself at 2. */
  function Admission(depth: nat): nat { if depth == 1 then DEPTH_ONE_ADMISSION else 1 }

  /** More mass than the admitted share of the total, compared without dividing. */
  predicate Exceeds(a: Anchor, mass: real, degree: nat, depth: nat) {
    Mul(a.mass, degree as real) > Mul(Mul(a.degree as real, mass), Admission(depth) as real)
  }

  predicate Transmits(a: Anchor, mass: real, degree: nat, depth: nat) { a.named || Exceeds(a, mass, degree, depth) }

  /** The anchors that transmit without being named. */
  function Unnamed(s: seq<Anchor>, mass: real, degree: nat, depth: nat): seq<Anchor> {
    if s == [] then [] else
      var a := s[|s| - 1];
      Unnamed(s[..|s| - 1], mass, degree, depth) + if !a.named && Exceeds(a, mass, degree, depth) then [a] else []
  }

  function Transmitting(s: seq<Anchor>, mass: real, degree: nat, depth: nat): seq<Anchor> {
    if s == [] then [] else
      var a := s[|s| - 1];
      Transmitting(s[..|s| - 1], mass, degree, depth) + if Transmits(a, mass, degree, depth) then [a] else []
  }

  /** findNeighbours' choice of the anchors to expand. */
  method Admit(touched: seq<Anchor>, depth: nat) returns (transmitting: seq<Anchor>, background: real)
    ensures transmitting == Transmitting(touched, TotalMass(touched), TotalDegree(touched), depth)
    ensures background == if TotalDegree(touched) > 0 then TotalMass(touched) / TotalDegree(touched) as real else 0.0
  {
    hide Transmits;
    var totalMass, totalDegree := 0.0, 0;
    for i := 0 to |touched|
      invariant totalMass == TotalMass(touched[..i]) && totalDegree == TotalDegree(touched[..i])
    {
      assert touched[..i + 1][..i] == touched[..i];
      totalMass := totalMass + touched[i].mass;
      totalDegree := totalDegree + touched[i].degree;
    }
    assert touched[..|touched|] == touched;
    background := if totalDegree > 0 then totalMass / totalDegree as real else 0.0;
    transmitting := [];
    for i := 0 to |touched|
      invariant transmitting == Transmitting(touched[..i], totalMass, totalDegree, depth)
    {
      assert touched[..i + 1][..i] == touched[..i];
      if Transmits(touched[i], totalMass, totalDegree, depth) {
        transmitting := transmitting + [touched[i]];
      }
    }
  }

  ghost predicate NonNegative(s: seq<Anchor>) { forall i :: 0 <= i < |s| ==> s[i].mass >= 0.0 }

  lemma {:induction false} MassGrows(s: seq<Anchor>)
    requires NonNegative(s)
    ensures TotalMass(s) >= 0.0
  {
    if s != [] {
      MassGrows(s[..|s| - 1]);
    }
  }

  /** The unnamed transmitters hold no more mass than all the anchors, and together
      exceed the bar as each does. */
  lemma {:induction false} UnnamedShare(s: seq<Anchor>, mass: real, degree: nat, depth: nat)
    requires NonNegative(s) && mass >= 0.0
    ensures var u := Unnamed(s, mass, degree, depth);
            && TotalMass(u) <= TotalMass(s) && TotalDegree(u) <= TotalDegree(s) && NonNegative(u)
            && Mul(TotalMass(u), degree as real) >= Mul(Mul(TotalDegree(u) as real, mass), Admission(depth) as real)
            && (u != [] ==>
               Mul(TotalMass(u), degree as real) > Mul(Mul(TotalDegree(u) as real, mass), Admission(depth) as real))
  {
    hide Mul;
    var u := Unnamed(s, mass, degree, depth);
    if s == [] {
      MulZero(degree as real, mass, Admission(depth) as real);
    } else {
      var n := |s| - 1;
      var r := Unnamed(s[..n], mass, degree, depth);
      UnnamedShare(s[..n], mass, degree, depth);
      if !s[n].named && Exceeds(s[n], mass, degree, depth) {
        assert u == r + [s[n]] && u[..|u| - 1] == r;
        Adds(TotalMass(r), s[n].mass, degree as real);
        Adds3(TotalDegree(r), s[n].degree, mass, Admission(depth) as real);
      } else {
        assert u == r;
      }
    }
  }

  lemma MulZero(d: real, m: real, a: real)
    ensures Mul(0.0, d) == 0.0 && Mul(Mul(0.0, m), a) == 0.0
  {
  }

  lemma Adds(x: real, y: real, d: real)
    ensures Mul(x + y, d) == Mul(x, d) + Mul(y, d)
  {
  }

  lemma Adds3(x: nat, y: nat, m: real, a: real)
    ensures Mul(Mul((x + y) as real, m), a) == Mul(Mul(x as real, m), a) + Mul(Mul(y as real, m), a)
  {
    Adds(x as real, y as real, m);
    Adds(Mul(x as real, m), Mul(y as real, m), a);
  }

  /** Unnamed transmitters never hold all the degree, and at depth 1 less than half. */
  lemma TransmittersAreFew(s: seq<Anchor>, depth: nat)
    requires NonNegative(s) && TotalDegree(s) > 0
    ensures Admission(depth) * TotalDegree(Unnamed(s, TotalMass(s), TotalDegree(s), depth)) < TotalDegree(s)
  {
    hide Unnamed, TotalMass, NonNegative, Mul;
    var m, d := TotalMass(s), TotalDegree(s);
    var u := Unnamed(s, m, d, depth);
    MassGrows(s);
    UnnamedShare(s, m, d, depth);
    if u != [] {
      MassGrows(u);
      FewerThanAll(TotalMass(u), m, TotalDegree(u), d, Admission(depth));
    }
  }

  lemma FewerThanAll(x: real, m: real, y: nat, d: nat, a: nat)
    requires 0.0 <= x <= m && Mul(x, d as real) > Mul(Mul(y as real, m), a as real)
    ensures a * y < d
  {
    hide Mul;
    if a * y >= d {
      AllOrMore(x, m, y, d, a);
    }
  }

  lemma AllOrMore(x: real, m: real, y: nat, d: nat, a: nat)
    requires 0.0 <= x <= m && a * y >= d
    ensures Mul(x, d as real) <= Mul(Mul(y as real, m), a as real)
  {
    var n := a * y;
    assert Mul(Mul(y as real, m), a as real) == m * n as real;
    assert m * n as real >= m * d as real >= x * d as real;
  }

  /** Whatever is admitted at depth 1 is admitted at depth 2. */
  lemma DepthOneWithinTwo(a: Anchor, mass: real, degree: nat)
    requires mass >= 0.0 && Transmits(a, mass, degree, 1)
    ensures Transmits(a, mass, degree, 2)
  {
    var share := a.degree as real * mass;
    assert share >= 0.0;
    assert Mul(share, 2.0) >= Mul(share, 1.0);
  }
}
