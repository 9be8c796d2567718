/** Concrete runs of the model: the portfolio the program is started with,
    and small inputs that show each decision. */
module Scenarios {
  import opened Portfolio
  import opened Rounding
  import opened Validation
  import opened Rebalancing

  /** The "moderate risk appetite" weights the program is started with. */
  const Moderate: seq<Item> := [
    Item("QQQ", 0.312), Item("JEPQ", 0.0375), Item("BBIN", 0.1205),
    Item("AGG", 0.3375), Item("BBAG", 0.1425), Item(Cash, 0.05)
  ]

  /** Its weights add up to exactly 1.0 and are accepted as given. */
  lemma ModerateAccepted()
    ensures Sum(Moderate) == 1.0
    ensures Validate(Moderate) == Ok(Moderate)
  {
    ModerateSum(Moderate);
    AcceptedAsGiven(Moderate);
  }

  lemma ModerateSum(m: seq<Item>)
    requires m == Moderate
    ensures Sum(m) == 1.0
  {
    SumOfSix(m);
  }

  lemma SumOfSix(m: seq<Item>)
    requires |m| == 6
    ensures Sum(m) == m[0].value + m[1].value + m[2].value + m[3].value + m[4].value + m[5].value
  {
    assert m[..1][..0] == [];
    assert Sum(m[..1]) == m[0].value;
    assert m[..2][..1] == m[..1];
    assert Sum(m[..2]) == Sum(m[..1]) + m[1].value;
    assert m[..3][..2] == m[..2];
    assert Sum(m[..3]) == Sum(m[..2]) + m[2].value;
    assert m[..4][..3] == m[..3];
    assert Sum(m[..4]) == Sum(m[..3]) + m[3].value;
    assert m[..5][..4] == m[..4];
    assert Sum(m[..5]) == Sum(m[..4]) + m[4].value;
    assert m[..5] == m[..|m| - 1];
  }

  /** Non-negative weights summing to at most 1.0 are stored as given. */
  lemma AcceptedAsGiven(m: seq<Item>)
    requires forall i :: 0 <= i < |m| ==> m[i].value >= 0.0
    requires Sum(m) <= MaxTotal
    ensures Validate(m) == Ok(m)
  {
    ValidateAcceptsIff(m);
    ValidateFirstRejection(m);
  }

  /** A(0.5), B(0.6): the running sum 1.1 exceeds 1.0 at B. */
  lemma ExceededAtSecondSymbol()
    ensures Validate([Item("A", 0.5), Item("B", 0.6)]) == Err(WeightSumExceeded)
  {
  }

  /** Which error is raised depends on the order of the pairs: the total is
      exceeded before the negative weight is reached, or the negative weight
      comes first. */
  lemma ErrorDependsOnOrder()
    ensures Validate([Item("A", 0.6), Item("B", 0.6), Item("C", -0.1)]) == Err(WeightSumExceeded)
    ensures Validate([Item("C", -0.1), Item("A", 0.6), Item("B", 0.6)]) == Err(NegativeWeight("C"))
  {
  }

  /** Weights 0.6 and 0.4 on an equity of 1000 with 500 held in A: buy 100 of
      A and 400 of B, the absent B counting as 0 and the placeholder as no
      order. */
  lemma BuysTowardTargets(ws: seq<Item>, ps: map<Symbol, real>)
    requires ws == [Item("A", 0.6), Item("B", 0.4), Item(Cash, 0.0)]
    requires ps == map["A" := 500.0]
    ensures Plan(ws, ps, 1000.0) == Ok([Buy("A", 100.0), Buy("B", 400.0)])
  {
    assert CurrentAmount(ps, "A") == 500.0 && CurrentAmount(ps, "B") == 0.0;
    WholeChange(ws[0], ps, 1000.0, -100.0);
    WholeChange(ws[1], ps, 1000.0, -400.0);
    ThreeWeights(ws, ps, 1000.0, 100.0, 400.0);
    assert [Buy("A", 100.0)] + [Buy("B", 400.0)] == [Buy("A", 100.0), Buy("B", 400.0)];
  }

  /** An overweight position is sold down and a position already on target
      gets no order. */
  lemma SellsOverweight(ws: seq<Item>, ps: map<Symbol, real>)
    requires ws == [Item("A", 0.5), Item("B", 0.5), Item(Cash, 0.0)]
    requires ps == map["A" := 700.0, "B" := 500.0]
    ensures Plan(ws, ps, 1000.0) == Ok([Sell("A", 200.0)])
  {
    assert CurrentAmount(ps, "A") == 700.0 && CurrentAmount(ps, "B") == 500.0;
    WholeChange(ws[0], ps, 1000.0, 200.0);
    WholeChange(ws[1], ps, 1000.0, 0.0);
    ThreeWeights(ws, ps, 1000.0, -200.0, 0.0);
    assert [Sell("A", 200.0)] + [] == [Sell("A", 200.0)];
  }

  /** A difference of whole millionths is not changed by rounding. */
  lemma WholeChange(w: Item, positions: map<Symbol, real>, equity: real, d: real)
    requires CurrentAmount(positions, w.key) - IdealAmount(w.value, equity) == d
    requires (d * Scale).Floor as real == d * Scale
    ensures PositionChange(w, positions, equity) == -d
  {
    Round6Exact(d);
  }

  /** The plan for three weights, the last of them the placeholder. */
  lemma ThreeWeights(ws: seq<Item>, positions: map<Symbol, real>, equity: real, c0: real, c1: real)
    requires |ws| == 3 && ws[0].key != Cash && ws[1].key != Cash && ws[2].key == Cash
    requires PositionChange(ws[0], positions, equity) == c0
    requires PositionChange(ws[1], positions, equity) == c1
    ensures Plan(ws, positions, equity) == Ok(OrderFor(Item(ws[0].key, c0)) + OrderFor(Item(ws[1].key, c1)))
  {
    var c := Changes(ws, positions, equity);
    assert Keys(ws)[2] == Cash;
    ThreeChanges(c, c[0], c[1], c[2]);
  }

  /** Popping the placeholder from three change entries, the last of which is
      the placeholder, leaves the first two, each with its own order. */
  lemma ThreeChanges(c: seq<Item>, x: Item, y: Item, z: Item)
    requires c == [x, y, z] && x.key != Cash && y.key != Cash && z.key == Cash
    ensures Pop(c, Cash) == [x, y]
    ensures Orders(Pop(c, Cash)) == OrderFor(x) + OrderFor(y)
  {
    assert [x][..0] == [];
    assert Pop([x], Cash) == [x];
    assert Orders([x]) == OrderFor(x);
    assert [x, y][..1] == [x];
    assert Pop([x, y], Cash) == [x, y];
    assert Orders([x, y]) == OrderFor(x) + OrderFor(y);
    assert c[..2] == [x, y];
  }

  /** The same weights without the cash placeholder raise `KeyError('$$$')`. */
  lemma NoPlaceholderNoOrders()
    ensures Plan([Item("A", 0.6), Item("B", 0.4)], map["A" := 500.0], 1000.0) == Err(MissingKey(Cash))
  {
    PlanFailsWithoutCash([Item("A", 0.6), Item("B", 0.4)], map["A" := 500.0], 1000.0);
  }
}
