/** The bot object: the weights it was constructed with, the holdings and
    account snapshot read at construction, and `rebalance`, which turns
    them into orders. */
module Bot {
  import opened Portfolio
  import opened Rounding
  import opened Validation
  import opened Rebalancing

  class SriBot {
    /** `self.weights`: symbol to weight, in insertion order. */
    var weights: seq<Item>
    /** The `'equity'` field of each holding in `self.positions`, by symbol. */
    var positions: map<Symbol, real>
    /** The `'equity'` field of `self.account`. */
    var equity: real

    /** What construction guarantees of the stored weights: they form a
        dictionary and pass validation. `Rebalance` relies on it for its
        per-symbol and ordering guarantees. */
    ghost predicate Valid()
      reads this
    {
      Distinct(Keys(weights)) && Validate(weights) == Ok(weights)
    }

    /** Stores validated weights and the snapshot. */
    constructor (weights: seq<Item>, positions: map<Symbol, real>, equity: real)
      requires Distinct(Keys(weights)) && Validate(weights) == Ok(weights)
      ensures Valid()
      ensures this.weights == weights && this.positions == positions && this.equity == equity
    {
      this.weights := weights;
      this.positions := positions;
      this.equity := equity;
    }

    /** `SriBot(weights)`, with the holdings and the account equity given
        instead of read from the brokerage: the weights are validated, and
        a bot exists only when validation passes. */
    static method Create(input: seq<Item>, holdings: map<Symbol, real>, accountEquity: real)
      returns (r: Result<SriBot, ValidationError>)
      requires Distinct(Keys(input))
      ensures r.Err? <==> Validate(input).Err?
      ensures r.Err? ==> r.error == Validate(input).error
      ensures r.Ok? ==> fresh(r.value) && r.value.Valid()
      ensures r.Ok? ==> r.value.weights == input && r.value.positions == holdings && r.value.equity == accountEquity
    {
      var v := ValidateWeights(input);
      if v.Err? {
        return Err(v.error);
      }
      ValidateFirstRejection(input);
      var bot := new SriBot(v.value, holdings, accountEquity);
      return Ok(bot);
    }

    /** The trading loop of `rebalance`: for each remaining change entry, in
        order, a sell of its absolute value when it is negative, a buy of it
        when it is positive, and nothing when it is 0. */
    static method PlaceOrders(changes: seq<Item>) returns (orders: seq<Order>)
      ensures orders == Orders(changes)
    {
      orders := [];
      var j := 0;
      while j < |changes|
        invariant 0 <= j <= |changes|
        invariant orders == Orders(changes[..j])
      {
        var stock := changes[j];
        ghost var before := orders;
        if stock.value < 0.0 {
          orders := orders + [Sell(stock.key, -stock.value)];
        } else if stock.value > 0.0 {
          orders := orders + [Buy(stock.key, stock.value)];
        }
        assert orders == before + OrderFor(stock);
        assert changes[..j + 1] == changes[..j] + [stock];
        OrdersAppend(changes[..j], stock);
        j := j + 1;
      }
      assert changes[..j] == changes;
    }

    /** `rebalance()`: the orders it places, in the order it places them, or
        the `KeyError` raised when the weights have no cash placeholder. */
    method Rebalance() returns (r: Result<seq<Order>, RebalanceError>)
      ensures r == Plan(weights, positions, equity)
      ensures Valid() && r.Ok? ==>
                forall i :: 0 <= i < |weights| && weights[i].key != Cash ==>
                  PlanOrdersFor(r.value, weights[i].key, PositionChange(weights[i], positions, equity))
      ensures Valid() && r.Ok? ==> InKeyOrder(r.value, Keys(weights))
    {
      // positionChanges = {k: 0 for k in self.weights}; the entry of the
      // i-th weighted symbol is at position i
      var ws, holdings, accountEquity := weights, positions, equity;
      ghost var target := Changes(ws, holdings, accountEquity);
      var changes := seq(|ws|, i requires 0 <= i < |ws| => Item(ws[i].key, 0.0));
      var i := 0;
      while i < |ws|
        invariant 0 <= i <= |ws|
        invariant |changes| == |ws|
        invariant forall k :: 0 <= k < i ==> changes[k] == target[k]
        invariant forall k :: i <= k < |ws| ==> changes[k] == Item(ws[k].key, 0.0)
      {
        var w := ws[i];
        var idealAmount := w.value * accountEquity;
        var currAmount := if w.key in holdings then holdings[w.key] else 0.0;
        changes := changes[i := Item(w.key, changes[i].value - Round6(currAmount - idealAmount))];
        assert changes[i] == target[i] by {
          assert currAmount == CurrentAmount(holdings, w.key);
          assert idealAmount == IdealAmount(w.value, accountEquity);
        }
        i := i + 1;
      }
      assert changes == target;
      ChangesKeys(ws, holdings, accountEquity);
      // positionChanges.pop('$$$')
      if Cash !in Keys(changes) {
        return Err(MissingKey(Cash));
      }
      changes := Pop(changes, Cash);
      var orders := PlaceOrders(changes);
      assert Plan(ws, holdings, accountEquity) == Ok(orders);
      if Distinct(Keys(ws)) {
        PlanGuarantees(ws, holdings, accountEquity);
      }
      return Ok(orders);
    }
  }
}
