/** The rebalance planner of `SriBot.rebalance`: for every weighted symbol the
    dollar change that brings its position to its share of the account
    equity, the cash placeholder taken out, and one sell or buy order for
    each remaining non-zero change, in weight order. */
module Rebalancing {
  import opened Portfolio
  import opened Rounding

  /** `positionChanges.pop('$$$')` on a dictionary without the placeholder
      raises `KeyError('$$$')`. */
  datatype RebalanceError = MissingKey(key: Symbol)

  /** The current equity held in `s`, 0 when nothing is held. */
  function CurrentAmount(positions: map<Symbol, real>, s: Symbol): real {
    if s in positions then positions[s] else 0.0
  }

  /** The equity a symbol of this weight should hold. */
  function IdealAmount(weight: real, equity: real): real {
    weight * equity
  }

  /** The change entry of one weighted symbol: it starts at 0 and has
      `round(current - ideal, 6)` subtracted from it. */
  function PositionChange(w: Item, positions: map<Symbol, real>, equity: real): real {
    0.0 - Round6(CurrentAmount(positions, w.key) - IdealAmount(w.value, equity))
  }

  /** `positionChanges` after its loop: one entry per weighted symbol, in
      weight order. */
  function Changes(ws: seq<Item>, positions: map<Symbol, real>, equity: real): (cs: seq<Item>)
    ensures |cs| == |ws|
  {
    seq(|ws|, i requires 0 <= i < |ws| => Item(ws[i].key, PositionChange(ws[i], positions, equity)))
  }

  /** The order one change entry yields: a sell of `abs(change)` for a
      negative change, a buy of the change for a positive one, none for 0. */
  function OrderFor(c: Item): seq<Order> {
    if c.value < 0.0 then [Sell(c.key, -c.value)]
    else if c.value > 0.0 then [Buy(c.key, c.value)]
    else []
  }

  /** The orders issued for the change entries, in order. */
  function Orders(cs: seq<Item>): seq<Order> {
    if cs == [] then [] else Orders(cs[..|cs| - 1]) + OrderFor(cs[|cs| - 1])
  }

  lemma OrdersAppend(cs: seq<Item>, c: Item)
    ensures Orders(cs + [c]) == Orders(cs) + OrderFor(c)
  {
    assert (cs + [c])[..|cs|] == cs;
  }

  /** The outcome of a rebalance: `KeyError` when the weights have no cash
      placeholder, otherwise the orders for every other weighted symbol. */
  function Plan(ws: seq<Item>, positions: map<Symbol, real>, equity: real): Result<seq<Order>, RebalanceError> {
    if Cash !in Keys(ws) then Err(MissingKey(Cash))
    else Ok(Orders(Pop(Changes(ws, positions, equity), Cash)))
  }

  /** Every weighted symbol gets exactly one change entry and no other symbol
      does; the entry is the ideal minus the current amount rounded to six
      decimals (current 0 when the symbol is not held), within half a
      millionth of the exact difference, and its sign is that of the
      difference once the difference exceeds half a millionth. */
  lemma ChangesMeaning(ws: seq<Item>, positions: map<Symbol, real>, equity: real)
    ensures Keys(Changes(ws, positions, equity)) == Keys(ws)
    ensures |Changes(ws, positions, equity)| == |ws|
    ensures forall i :: 0 <= i < |ws| ==>
              var c := Changes(ws, positions, equity)[i].value;
              var diff := ws[i].value * equity - CurrentAmount(positions, ws[i].key);
              c == Round6(diff) &&
              -HalfUnit <= c - diff <= HalfUnit &&
              (c > 0.0 <==> diff > HalfUnit) &&
              (c < 0.0 <==> diff < -HalfUnit) &&
              (c == 0.0 <==> -HalfUnit <= diff <= HalfUnit)
    ensures forall i :: 0 <= i < |ws| && ws[i].key !in positions ==>
              Changes(ws, positions, equity)[i].value == Round6(ws[i].value * equity)
  {
    forall i | 0 <= i < |ws|
      ensures Changes(ws, positions, equity)[i].value
              == Round6(ws[i].value * equity - CurrentAmount(positions, ws[i].key))
    {
      var diff := ws[i].value * equity - CurrentAmount(positions, ws[i].key);
      assert CurrentAmount(positions, ws[i].key) - IdealAmount(ws[i].value, equity) == -diff;
      Round6Negate(diff);
      Round6Sign(diff);
    }
    forall i | 0 <= i < |ws|
      ensures var diff := ws[i].value * equity - CurrentAmount(positions, ws[i].key);
              (Round6(diff) > 0.0 <==> diff > HalfUnit) &&
              (Round6(diff) < 0.0 <==> diff < -HalfUnit) &&
              (Round6(diff) == 0.0 <==> -HalfUnit <= diff <= HalfUnit)
    {
      Round6Sign(ws[i].value * equity - CurrentAmount(positions, ws[i].key));
    }
  }

  /** The change entries have the weights' keys, in the same order. */
  lemma ChangesKeys(ws: seq<Item>, positions: map<Symbol, real>, equity: real)
    ensures Keys(Changes(ws, positions, equity)) == Keys(ws)
  {
  }

  /** Every issued order has a positive amount and the symbol of a change
      entry. */
  lemma {:induction false} OrdersSound(cs: seq<Item>)
    ensures forall o :: o in Orders(cs) ==> o.amount > 0.0 && o.symbol in Keys(cs)
  {
    if cs != [] {
      KeysInit(cs);
      OrdersSound(cs[..|cs| - 1]);
    }
  }

  /** In a dictionary of changes, the orders for the key of entry `i` are
      exactly the ones that entry yields. */
  lemma {:induction false} OrdersWithKey(cs: seq<Item>, i: nat)
    requires Distinct(Keys(cs))
    requires i < |cs|
    ensures forall o :: o in Orders(cs) && o.symbol == cs[i].key <==> o in OrderFor(cs[i])
  {
    var init, last := cs[..|cs| - 1], cs[|cs| - 1];
    KeysInit(cs);
    DistinctPrefix(Keys(cs));
    OrdersSound(init);
    if i < |cs| - 1 {
      assert init[i] == cs[i];
      assert Keys(cs)[i] == cs[i].key;
      OrdersWithKey(init, i);
    }
  }

  /** In a dictionary of changes, the entry for `k` yields a sell of
      `-change` exactly when the change is negative, a buy of the change
      exactly when it is positive, and no order for `k` at all exactly when
      it is 0. */
  lemma OrdersPerEntry(cs: seq<Item>, i: nat, k: Symbol, c: real)
    requires Distinct(Keys(cs))
    requires i < |cs| && cs[i] == Item(k, c)
    ensures PlanOrdersFor(Orders(cs), k, c)
  {
    OrdersWithKey(cs, i);
    OrderForSigns(k, c);
    SameOrdersFor(Orders(cs), OrderFor(cs[i]), k, c);
  }

  /** The order of a single entry has the sign rules of `PlanOrdersFor`. */
  lemma OrderForSigns(k: Symbol, c: real)
    ensures PlanOrdersFor(OrderFor(Item(k, c)), k, c)
  {
  }

  /** Orders that agree on the orders for `k` agree on `PlanOrdersFor`. */
  lemma SameOrdersFor(os: seq<Order>, single: seq<Order>, k: Symbol, c: real)
    requires forall o :: o in os && o.symbol == k <==> o in single
    requires forall o :: o in single ==> o.symbol == k
    requires PlanOrdersFor(single, k, c)
    ensures PlanOrdersFor(os, k, c)
  {
  }

  /** Two orders come in the order of their symbols' change entries, so no
      symbol has two orders. */
  lemma {:induction false} OrderPairInEntryOrder(cs: seq<Item>, p: nat, q: nat)
    requires Distinct(Keys(cs))
    requires p < q < |Orders(cs)|
    ensures Orders(cs)[p].symbol in Keys(cs) && Orders(cs)[q].symbol in Keys(cs)
    ensures IndexOf(Keys(cs), Orders(cs)[p].symbol) < IndexOf(Keys(cs), Orders(cs)[q].symbol)
  {
    var init, last := cs[..|cs| - 1], cs[|cs| - 1];
    var os, before := Orders(cs), Orders(init);
    KeysInit(cs);
    DistinctPrefix(Keys(cs));
    assert os[p] == before[p];
    if q < |before| {
      assert os[q] == before[q];
      OrderPairInEntryOrder(init, p, q);
    } else {
      OrdersSound(init);
      assert before[p] in before;
      assert os[q] in OrderFor(last);
    }
    IndexOfAppend(Keys(init), last.key, os[p].symbol);
    IndexOfAppend(Keys(init), last.key, os[q].symbol);
  }

  /** Without the cash placeholder among the weights, rebalancing raises
      `KeyError('$$$')` before any order; with it, it produces orders. */
  lemma PlanFailsWithoutCash(ws: seq<Item>, positions: map<Symbol, real>, equity: real)
    ensures Plan(ws, positions, equity).Err? <==> (forall i :: 0 <= i < |ws| ==> ws[i].key != Cash)
    ensures Plan(ws, positions, equity).Err? ==> Plan(ws, positions, equity).error == MissingKey(Cash)
  {
    forall i | 0 <= i < |ws|
      ensures Keys(ws)[i] == ws[i].key
    {
    }
  }

  /** Every order is for a weighted symbol other than the cash placeholder
      and has a strictly positive amount. */
  lemma PlanOrdersValid(ws: seq<Item>, positions: map<Symbol, real>, equity: real)
    requires Plan(ws, positions, equity).Ok?
    ensures forall o :: o in Plan(ws, positions, equity).value ==>
              o.amount > 0.0 && o.symbol != Cash && o.symbol in Keys(ws)
  {
    var cs := Changes(ws, positions, equity);
    ChangesKeys(ws, positions, equity);
    PopKeys(cs, Cash);
    OrdersSound(Pop(cs, Cash));
  }

  /** Each weighted symbol other than the cash placeholder is sold for
      `abs(change)` exactly when its change is negative, bought for its
      change exactly when the change is positive, and left alone exactly
      when the change is 0. */
  lemma PlanOrderPerSymbol(ws: seq<Item>, positions: map<Symbol, real>, equity: real, i: nat)
    requires Distinct(Keys(ws))
    requires Plan(ws, positions, equity).Ok?
    requires i < |ws| && ws[i].key != Cash
    ensures PlanOrdersFor(Plan(ws, positions, equity).value, ws[i].key, PositionChange(ws[i], positions, equity))
  {
    var rest := Pop(Changes(ws, positions, equity), Cash);
    var j := EntryAfterPop(ws, positions, equity, i);
    OrdersPerEntry(rest, j, ws[i].key, PositionChange(ws[i], positions, equity));
  }

  /** `os` holds a sell of `-c` for `k` exactly when `c` is negative, a buy of
      `c` exactly when it is positive, and no order for `k` exactly when it
      is 0. */
  predicate PlanOrdersFor(os: seq<Order>, k: Symbol, c: real) {
    (Sell(k, -c) in os <==> c < 0.0) &&
    (Buy(k, c) in os <==> c > 0.0) &&
    ((forall o :: o in os ==> o.symbol != k) <==> c == 0.0)
  }

  /** Where the change entry of a non-placeholder symbol sits once the
      placeholder is popped. */
  lemma EntryAfterPop(ws: seq<Item>, positions: map<Symbol, real>, equity: real, i: nat) returns (j: nat)
    requires Distinct(Keys(ws))
    requires i < |ws| && ws[i].key != Cash
    ensures var rest := Pop(Changes(ws, positions, equity), Cash);
            Distinct(Keys(rest)) && j < |rest| &&
            rest[j] == Item(ws[i].key, PositionChange(ws[i], positions, equity))
  {
    var cs := Changes(ws, positions, equity);
    var rest := Pop(cs, Cash);
    ChangesKeys(ws, positions, equity);
    PopItems(cs, Cash);
    PopKeys(cs, Cash);
    assert cs[i] in cs;
    assert cs[i] in rest;
    j :| 0 <= j < |rest| && rest[j] == cs[i];
  }

  /** The orders follow the order of the weights, at most one per symbol. */
  lemma PlanInWeightOrder(ws: seq<Item>, positions: map<Symbol, real>, equity: real)
    requires Distinct(Keys(ws))
    requires Plan(ws, positions, equity).Ok?
    ensures InKeyOrder(Plan(ws, positions, equity).value, Keys(ws))
  {
    var os := Plan(ws, positions, equity).value;
    forall p, q | 0 <= p < q < |os|
      ensures Before(Keys(ws), os[p].symbol, os[q].symbol)
    {
      PlanPairInWeightOrder(ws, positions, equity, p, q);
    }
  }

  /** `s` and `t` are both keys of `ks`, and `s` comes first. */
  predicate Before(ks: seq<Symbol>, s: Symbol, t: Symbol) {
    s in ks && t in ks && IndexOf(ks, s) < IndexOf(ks, t)
  }

  /** The orders come in the order of their symbols in `ks`, all of which
      are keys of `ks`, so no key has two. */
  predicate InKeyOrder(os: seq<Order>, ks: seq<Symbol>) {
    forall p, q :: 0 <= p < q < |os| ==> Before(ks, os[p].symbol, os[q].symbol)
  }

  /** The per-symbol and the ordering guarantees together. */
  lemma PlanGuarantees(ws: seq<Item>, positions: map<Symbol, real>, equity: real)
    requires Distinct(Keys(ws))
    requires Plan(ws, positions, equity).Ok?
    ensures forall i :: 0 <= i < |ws| && ws[i].key != Cash ==>
              PlanOrdersFor(Plan(ws, positions, equity).value, ws[i].key, PositionChange(ws[i], positions, equity))
    ensures InKeyOrder(Plan(ws, positions, equity).value, Keys(ws))
  {
    forall i | 0 <= i < |ws| && ws[i].key != Cash
      ensures PlanOrdersFor(Plan(ws, positions, equity).value, ws[i].key, PositionChange(ws[i], positions, equity))
    {
      PlanOrderPerSymbol(ws, positions, equity, i);
    }
    PlanInWeightOrder(ws, positions, equity);
  }

  lemma PlanPairInWeightOrder(ws: seq<Item>, positions: map<Symbol, real>, equity: real, p: nat, q: nat)
    requires Distinct(Keys(ws))
    requires Plan(ws, positions, equity).Ok?
    requires p < q < |Plan(ws, positions, equity).value|
    ensures Before(Keys(ws), Plan(ws, positions, equity).value[p].symbol, Plan(ws, positions, equity).value[q].symbol)
  {
    var cs := Changes(ws, positions, equity);
    var rest := Pop(cs, Cash);
    ChangesKeys(ws, positions, equity);
    PopKeys(cs, Cash);
    OrderPairInEntryOrder(rest, p, q);
    PopKeepsOrder(cs, Cash, Orders(rest)[p].symbol, Orders(rest)[q].symbol);
  }
}
