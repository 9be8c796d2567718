/** The weight validator of `SriBot.__init__`: the symbol-to-weight pairs are
    walked in insertion order with a running sum, and the first pair whose
    weight is negative, or whose weight takes the running sum above 1.0,
    stops construction with an error. */
module Validation {
  import opened Portfolio

  /** The exceptions `raiseError` raises while weights are validated. */
  datatype ValidationError = NegativeWeight(symbol: Symbol) | WeightSumExceeded

  /** The message of the raised exception; a negative weight's message
      names its symbol. */
  function Message(e: ValidationError): (m: string)
    ensures e.NegativeWeight? ==> |m| >= 8 + |e.symbol| && m[8..8 + |e.symbol|] == e.symbol
  {
    match e
    case NegativeWeight(s) => "Symbol (" + s + ") weight cannot be negative!"
    case WeightSumExceeded => "Total portfolio weight cannot exceed 1.0!"
  }

  /** Different errors have different messages, so the message tells which
      check failed and, for a negative weight, which symbol. */
  lemma MessagesIdentifyErrors(e1: ValidationError, e2: ValidationError)
    ensures Message(e1) == Message(e2) ==> e1 == e2
  {
    if e1.NegativeWeight? != e2.NegativeWeight? {
      assert Message(e1)[0] != Message(e2)[0];
    } else if e1.NegativeWeight? && Message(e1) == Message(e2) {
      assert |e1.symbol| == |e2.symbol|;
    }
  }

  /** The largest total weight a portfolio may have. */
  const MaxTotal: real := 1.0

  /** The sum of the values of the items, added in order as `weightSum`
      adds them. */
  function Sum(d: seq<Item>): real {
    if d == [] then 0.0 else Sum(d[..|d| - 1]) + d[|d| - 1].value
  }

  /** The pair at position `i` is refused when it is reached: its weight is
      negative, or the weights up to and including it sum to more than 1.0. */
  predicate RejectedAt(ws: seq<Item>, i: nat)
    requires i < |ws|
  {
    ws[i].value < 0.0 || Sum(ws[..i + 1]) > MaxTotal
  }

  /** The error raised at a refused position: the negativity test comes
      first. */
  function ErrorAt(ws: seq<Item>, i: nat): (e: ValidationError)
    requires i < |ws|
    ensures e.NegativeWeight? <==> ws[i].value < 0.0
    ensures e.NegativeWeight? ==> e.symbol == ws[i].key
  {
    if ws[i].value < 0.0 then NegativeWeight(ws[i].key) else WeightSumExceeded
  }

  /** Validation from position `i` on: the first refused position decides. */
  function ValidateFrom(ws: seq<Item>, i: nat): Result<seq<Item>, ValidationError>
    requires i <= |ws|
    decreases |ws| - i
  {
    if i == |ws| then Ok(ws)
    else if RejectedAt(ws, i) then Err(ErrorAt(ws, i))
    else ValidateFrom(ws, i + 1)
  }

  /** What constructing a bot from weights `ws` stores, or the error it
      raises. */
  function Validate(ws: seq<Item>): Result<seq<Item>, ValidationError> {
    ValidateFrom(ws, 0)
  }

  lemma {:induction false} ValidateFromFirstRejection(ws: seq<Item>, i: nat)
    requires i <= |ws|
    ensures ValidateFrom(ws, i).Ok? <==> forall j :: i <= j < |ws| ==> !RejectedAt(ws, j)
    ensures ValidateFrom(ws, i).Ok? ==> ValidateFrom(ws, i).value == ws
    ensures forall k :: i <= k < |ws| && RejectedAt(ws, k) && (forall j :: i <= j < k ==> !RejectedAt(ws, j)) ==>
              ValidateFrom(ws, i) == Err(ErrorAt(ws, k))
    decreases |ws| - i
  {
    if i < |ws| {
      ValidateFromFirstRejection(ws, i + 1);
    }
  }

  /** Validation succeeds exactly when no position is refused, and then
      stores the input itself; otherwise it fails with the error of the
      FIRST refused position, whatever comes after it. */
  lemma ValidateFirstRejection(ws: seq<Item>)
    ensures Validate(ws).Ok? <==> forall j :: 0 <= j < |ws| ==> !RejectedAt(ws, j)
    ensures Validate(ws).Ok? ==> Validate(ws).value == ws
    ensures forall k :: 0 <= k < |ws| && RejectedAt(ws, k) && (forall j :: 0 <= j < k ==> !RejectedAt(ws, j)) ==>
              Validate(ws) == Err(ErrorAt(ws, k))
  {
    ValidateFromFirstRejection(ws, 0);
  }

  /** On success the stored dictionary has exactly the input's symbols, each
      with its input weight. */
  lemma StoredWeightsMatchInput(ws: seq<Item>)
    requires Distinct(Keys(ws))
    requires Validate(ws).Ok?
    ensures forall k :: k in AsMap(Validate(ws).value) <==> k in Keys(ws)
    ensures forall i :: 0 <= i < |ws| ==>
              ws[i].key in AsMap(Validate(ws).value) && AsMap(Validate(ws).value)[ws[i].key] == ws[i].value
  {
    ValidateFirstRejection(ws);
    AsMapValues(ws);
  }

  lemma {:induction false} SumConcat(a: seq<Item>, b: seq<Item>)
    ensures Sum(a + b) == Sum(a) + Sum(b)
    decreases |b|
  {
    if b == [] {
      assert a + b == a;
    } else {
      var all := a + b;
      assert all[..|all| - 1] == a + b[..|b| - 1];
      assert all[|all| - 1] == b[|b| - 1];
      SumConcat(a, b[..|b| - 1]);
    }
  }

  /** No value negative, no sum negative. */
  lemma {:induction false} SumNonNegative(d: seq<Item>)
    requires forall i :: 0 <= i < |d| ==> d[i].value >= 0.0
    ensures Sum(d) >= 0.0
  {
    if d != [] {
      SumNonNegative(d[..|d| - 1]);
    }
  }

  /** With no negative weight the running sums never decrease. */
  lemma PrefixSumsGrow(ws: seq<Item>, i: nat, j: nat)
    requires forall k :: 0 <= k < |ws| ==> ws[k].value >= 0.0
    requires i <= j <= |ws|
    ensures Sum(ws[..i]) <= Sum(ws[..j])
  {
    assert ws[..j] == ws[..i] + ws[i..j];
    SumConcat(ws[..i], ws[i..j]);
    SumNonNegative(ws[i..j]);
  }

  /** Whether validation accepts does not depend on the running check: it
      accepts exactly when no weight is negative and all weights together
      sum to at most 1.0. A weight of exactly 0 and a total of exactly 1.0
      are both accepted. */
  lemma ValidateAcceptsIff(ws: seq<Item>)
    ensures Validate(ws).Ok? <==>
              (forall i :: 0 <= i < |ws| ==> ws[i].value >= 0.0) && Sum(ws) <= MaxTotal
  {
    ValidateFirstRejection(ws);
    assert ws[..|ws|] == ws;
    var nonNegative := forall i :: 0 <= i < |ws| ==> ws[i].value >= 0.0;
    if Validate(ws).Ok? {
      forall i | 0 <= i < |ws|
        ensures ws[i].value >= 0.0
      {
        assert !RejectedAt(ws, i);
      }
      if ws != [] {
        assert !RejectedAt(ws, |ws| - 1);
      }
    }
    if nonNegative && Sum(ws) <= MaxTotal {
      forall j | 0 <= j < |ws|
        ensures !RejectedAt(ws, j)
      {
        PrefixSumsGrow(ws, j + 1, |ws|);
      }
    }
  }

  /** Once validation fails, appending more pairs changes nothing: no later
      symbol is looked at. */
  lemma LaterPairsIgnored(ws: seq<Item>, more: seq<Item>)
    requires Validate(ws).Err?
    ensures Validate(ws + more) == Validate(ws)
  {
    ValidateFromExtend(ws, more, 0);
  }

  lemma {:induction false} ValidateFromExtend(ws: seq<Item>, more: seq<Item>, i: nat)
    requires i <= |ws|
    requires ValidateFrom(ws, i).Err?
    ensures ValidateFrom(ws + more, i) == ValidateFrom(ws, i)
    decreases |ws| - i
  {
    var all := ws + more;
    assert all[..i + 1] == ws[..i + 1];
    assert all[i] == ws[i];
    if !RejectedAt(ws, i) {
      ValidateFromExtend(ws, more, i + 1);
    }
  }

  /** Adding a symbol with weight 0 to accepted weights keeps them accepted. */
  lemma ZeroWeightAccepted(ws: seq<Item>, s: Symbol)
    requires Validate(ws).Ok?
    ensures Validate(ws + [Item(s, 0.0)]).Ok?
  {
    var z := Item(s, 0.0);
    var all := ws + [z];
    ValidateAcceptsIff(ws);
    SumConcat(ws, [z]);
    assert Sum([z]) == 0.0 by {
      assert [z][..0] == [];
    }
    forall i | 0 <= i < |all|
      ensures all[i].value >= 0.0
    {
      if i < |ws| {
        assert all[i] == ws[i];
      }
    }
    ValidateAcceptsIff(all);
  }

  lemma {:induction false} SumPermutation(a: seq<Item>, b: seq<Item>)
    requires multiset(a) == multiset(b)
    ensures Sum(a) == Sum(b)
    decreases |a|
  {
    if a != [] {
      var init, x := a[..|a| - 1], a[|a| - 1];
      assert a == init + [x];
      assert multiset(init) == multiset(a) - multiset{x};
      assert x in multiset(b);
      var j :| 0 <= j < |b| && b[j] == x;
      MultisetRemoveAt(b, j);
      SumPermutation(init, b[..j] + b[j + 1..]);
      SumMatchedLast(a, b, j);
    } else {
      assert |b| == |multiset(b)| == 0;
    }
  }

  /** If the last item of `a` is `b[j]` and the rest of `a` has the sum of
      the rest of `b`, then `a` and `b` have the same sum. */
  lemma SumMatchedLast(a: seq<Item>, b: seq<Item>, j: nat)
    requires a != [] && j < |b| && b[j] == a[|a| - 1]
    requires Sum(a[..|a| - 1]) == Sum(b[..j] + b[j + 1..])
    ensures Sum(a) == Sum(b)
  {
    SplitAt(b, j);
    SumRemoveAt(b[..j], b[j], b[j + 1..]);
  }

  lemma SplitAt(b: seq<Item>, j: nat)
    requires j < |b|
    ensures b == b[..j] + ([b[j]] + b[j + 1..])
  {
  }

  /** Taking an item out of the middle takes its value out of the sum. */
  lemma SumRemoveAt(u: seq<Item>, x: Item, v: seq<Item>)
    ensures Sum(u + ([x] + v)) == Sum(u + v) + x.value
  {
    SumConcat(u, [x] + v);
    SumConcat(u, v);
    SumSingleton(x, v);
  }

  lemma SumSingleton(x: Item, v: seq<Item>)
    ensures Sum([x] + v) == x.value + Sum(v)
  {
    assert [x][..0] == [];
    SumConcat([x], v);
  }

  lemma MultisetRemoveAt(b: seq<Item>, j: nat)
    requires j < |b|
    ensures multiset(b[..j] + b[j + 1..]) == multiset(b) - multiset{b[j]}
  {
    assert b == (b[..j] + [b[j]]) + b[j + 1..];
  }

  /** Whether validation accepts does not depend on the order of the pairs;
      only WHICH error is raised does (see the scenarios). */
  lemma AcceptanceIgnoresOrder(ws: seq<Item>, vs: seq<Item>)
    requires multiset(ws) == multiset(vs)
    ensures Validate(ws).Ok? <==> Validate(vs).Ok?
  {
    ValidateAcceptsIff(ws);
    ValidateAcceptsIff(vs);
    SumPermutation(ws, vs);
    forall i | 0 <= i < |ws|
      ensures ws[i] in multiset(vs)
    {
      assert ws[i] in multiset(ws);
    }
    forall i | 0 <= i < |vs|
      ensures vs[i] in multiset(ws)
    {
      assert vs[i] in multiset(vs);
    }
  }

  /** The loop of `SriBot.__init__`: a running sum, the negativity test
      before the weight is added, the total test after, and the pair stored
      only when both pass. */
  method ValidateWeights(weights: seq<Item>) returns (r: Result<seq<Item>, ValidationError>)
    ensures r == Validate(weights)
  {
    var stored: seq<Item> := [];
    var weightSum: real := 0.0;
    var i := 0;
    while i < |weights|
      invariant 0 <= i <= |weights|
      invariant stored == weights[..i]
      invariant weightSum == Sum(weights[..i])
      invariant Validate(weights) == ValidateFrom(weights, i)
    {
      var w := weights[i];
      assert weights[..i + 1][..i] == weights[..i];
      if w.value < 0.0 {
        return Err(NegativeWeight(w.key));
      }
      weightSum := weightSum + w.value;
      if weightSum > MaxTotal {
        return Err(WeightSumExceeded);
      }
      stored := stored + [w];
      i := i + 1;
    }
    assert weights[..i] == weights;
    return Ok(stored);
  }
}
