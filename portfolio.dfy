/** The values the bot works with: ticker symbols, insertion-ordered
    dictionaries from symbol to amount, orders and results. */
module Portfolio {

  type Symbol = string

  /** The placeholder symbol for cash that is deliberately left uninvested. */
  const Cash: Symbol := "$$$"

  /** One `(key, value)` pair of a Python dictionary, as `dict.items()`
      yields it: a symbol with its weight, or with its dollar change. */
  datatype Item = Item(key: Symbol, value: real)

  /** An outcome that is either a value or the error that was raised. */
  datatype Result<T, E> = Ok(value: T) | Err(error: E)

  /** A dollar-denominated (fractional) market order. */
  datatype Order = Buy(symbol: Symbol, amount: real) | Sell(symbol: Symbol, amount: real)

  /** The keys of a dictionary given as its items, in insertion order. */
  function Keys(d: seq<Item>): seq<Symbol> {
    seq(|d|, i requires 0 <= i < |d| => d[i].key)
  }

  /** No key occurs twice: what makes a sequence of items a dictionary. */
  predicate Distinct(ks: seq<Symbol>) {
    forall i, j :: 0 <= i < j < |ks| ==> ks[i] != ks[j]
  }

  lemma KeysInit(d: seq<Item>)
    requires d != []
    ensures Keys(d) == Keys(d[..|d| - 1]) + [d[|d| - 1].key]
  {
  }

  /** The dictionary obtained by inserting the items in order
      (`d[key] = value` for each): its keys are exactly the items' keys. */
  function AsMap(d: seq<Item>): (m: map<Symbol, real>)
    ensures forall k :: k in m <==> k in Keys(d)
  {
    if d == [] then map[]
    else
      KeysInit(d);
      AsMap(d[..|d| - 1])[d[|d| - 1].key := d[|d| - 1].value]
  }

  /** Inserting distinct keys binds each key to its own value. */
  lemma {:induction false} AsMapValues(d: seq<Item>)
    requires Distinct(Keys(d))
    ensures forall i :: 0 <= i < |d| ==> d[i].key in AsMap(d) && AsMap(d)[d[i].key] == d[i].value
  {
    if d != [] {
      var init := d[..|d| - 1];
      KeysInit(d);
      DistinctPrefix(Keys(d));
      AsMapValues(init);
      forall i | 0 <= i < |d|
        ensures d[i].key in AsMap(d) && AsMap(d)[d[i].key] == d[i].value
      {
        if i < |d| - 1 {
          assert init[i] == d[i];
          assert Keys(d)[i] == d[i].key && Keys(d)[|d| - 1] == d[|d| - 1].key;
        }
      }
    }
  }

  lemma DistinctPrefix(ks: seq<Symbol>)
    requires ks != [] && Distinct(ks)
    ensures Distinct(ks[..|ks| - 1]) && ks[|ks| - 1] !in ks[..|ks| - 1]
  {
  }

  /** The position of the first occurrence of `k`. */
  function IndexOf(ks: seq<Symbol>, k: Symbol): (i: nat)
    requires k in ks
    ensures i < |ks| && ks[i] == k
    ensures forall j :: 0 <= j < i ==> ks[j] != k
  {
    if k in ks[..|ks| - 1] then IndexOf(ks[..|ks| - 1], k) else |ks| - 1
  }

  /** A key already present keeps its position when another is appended;
      a new key goes last. */
  lemma IndexOfAppend(ks: seq<Symbol>, x: Symbol, k: Symbol)
    requires k in ks + [x]
    ensures k in ks ==> IndexOf(ks + [x], k) == IndexOf(ks, k)
    ensures k !in ks ==> IndexOf(ks + [x], k) == |ks|
  {
    assert (ks + [x])[..|ks|] == ks;
  }

  /** `dict.pop(k)` once it is known that `k` is present: the items without
      the key `k` (a dictionary holds it at most once). It never grows the
      dictionary. */
  function Pop(d: seq<Item>, k: Symbol): (r: seq<Item>)
    ensures |r| <= |d|
  {
    if d == [] then []
    else if d[|d| - 1].key == k then Pop(d[..|d| - 1], k)
    else Pop(d[..|d| - 1], k) + [d[|d| - 1]]
  }

  /** Popping `k` removes exactly the items with key `k`. */
  lemma {:induction false} PopItems(d: seq<Item>, k: Symbol)
    ensures forall x :: x in Pop(d, k) <==> x in d && x.key != k
  {
    if d != [] {
      var init := d[..|d| - 1];
      assert d == init + [d[|d| - 1]];
      PopItems(init, k);
    }
  }

  /** Popping `k` removes exactly the key `k` and keeps a dictionary a
      dictionary. */
  lemma {:induction false} PopKeys(d: seq<Item>, k: Symbol)
    ensures forall s :: s in Keys(Pop(d, k)) <==> s in Keys(d) && s != k
    ensures Distinct(Keys(d)) ==> Distinct(Keys(Pop(d, k)))
  {
    if d != [] {
      var init, last := d[..|d| - 1], d[|d| - 1];
      KeysInit(d);
      PopKeys(init, k);
      if Distinct(Keys(d)) {
        DistinctPrefix(Keys(d));
      }
      if last.key != k {
        var p := Pop(d, k);
        KeysInit(p);
        assert p[..|p| - 1] == Pop(init, k);
        assert Keys(p) == Keys(Pop(init, k)) + [last.key];
      }
    }
  }

  /** Popping a key keeps the relative order of the remaining keys. */
  lemma {:induction false} PopKeepsOrder(d: seq<Item>, k: Symbol, s: Symbol, t: Symbol)
    requires Distinct(Keys(d))
    requires s in Keys(Pop(d, k)) && t in Keys(Pop(d, k))
    requires IndexOf(Keys(Pop(d, k)), s) < IndexOf(Keys(Pop(d, k)), t)
    ensures s in Keys(d) && t in Keys(d)
    ensures IndexOf(Keys(d), s) < IndexOf(Keys(d), t)
  {
    var init, last := d[..|d| - 1], d[|d| - 1];
    PopKeys(d, k);
    PopKeys(init, k);
    KeysInit(d);
    DistinctPrefix(Keys(d));
    IndexOfAppend(Keys(init), last.key, s);
    IndexOfAppend(Keys(init), last.key, t);
    if last.key == k {
      PopKeepsOrder(init, k, s, t);
    } else {
      var p := Pop(init, k);
      KeysInit(Pop(d, k));
      assert Pop(d, k)[..|Pop(d, k)| - 1] == p;
      IndexOfAppend(Keys(p), last.key, s);
      IndexOfAppend(Keys(p), last.key, t);
      if s in Keys(p) && t in Keys(p) {
        PopKeepsOrder(init, k, s, t);
      }
    }
  }
}
