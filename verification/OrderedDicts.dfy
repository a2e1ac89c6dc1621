/** Python's OrderedDict, keyed by command sequence: entries in order, oldest first. */
module OrderedDicts {

  datatype OrderedDict<+V> = OrderedDict(order: seq<int>, entries: map<int, V>) {

    ghost predicate Valid() {
      NoDuplicates(order) && forall k :: k in order <==> k in entries
    }

    /** Assign and `move_to_end`: a new or existing key becomes the youngest. */
    function Touch(k: int, v: V): OrderedDict<V> {
      OrderedDict(Without(order, k) + [k], entries[k := v])
    }

    function Pop(k: int): OrderedDict<V> {
      OrderedDict(Without(order, k), entries - {k})
    }

    /** `popitem(last=False)`. */
    function PopFirst(): OrderedDict<V>
      requires order != []
    {
      OrderedDict(order[1..], entries - {order[0]})
    }
  }

  function Empty<V>(): OrderedDict<V> {
    OrderedDict([], map[])
  }

  predicate NoDuplicates(s: seq<int>) {
    forall i, j | 0 <= i < j < |s| :: s[i] != s[j]
  }

  function Without(s: seq<int>, k: int): (r: seq<int>)
    ensures |r| <= |s|
  {
    if s == [] then [] else (if s[0] == k then [] else [s[0]]) + Without(s[1..], k)
  }

  lemma {:induction false} WithoutMembers(s: seq<int>, k: int)
    ensures forall x :: x in Without(s, k) <==> x in s && x != k
  {
    if s != [] {
      WithoutMembers(s[1..], k);
      assert s == [s[0]] + s[1..];
    }
  }

  lemma {:induction false} WithoutAbsent(s: seq<int>, k: int)
    requires k !in s
    ensures Without(s, k) == s
  {
    if s != [] {
      assert s == [s[0]] + s[1..];
      WithoutAbsent(s[1..], k);
    }
  }

  lemma {:induction false} WithoutConcat(a: seq<int>, b: seq<int>, k: int)
    ensures Without(a + b, k) == Without(a, k) + Without(b, k)
  {
    if a == [] {
      assert a + b == b;
    } else {
      assert (a + b)[1..] == a[1..] + b;
      WithoutConcat(a[1..], b, k);
    }
  }

  lemma {:induction false} WithoutKeepsDistinct(s: seq<int>, k: int)
    requires NoDuplicates(s)
    ensures NoDuplicates(Without(s, k))
    ensures |Without(s, k)| == if k in s then |s| - 1 else |s|
  {
    if s != [] {
      assert s == [s[0]] + s[1..];
      WithoutKeepsDistinct(s[1..], k);
      WithoutMembers(s[1..], k);
      assert s[0] !in s[1..];
    }
  }

  lemma {:induction false} TouchIsValid<V>(d: OrderedDict<V>, k: int, v: V)
    requires d.Valid()
    ensures d.Touch(k, v).Valid()
    ensures |d.Touch(k, v).order| == if k in d.entries then |d.order| else |d.order| + 1
  {
    WithoutKeepsDistinct(d.order, k);
    WithoutMembers(d.order, k);
  }

  lemma {:induction false} PopFirstIsValid<V>(d: OrderedDict<V>)
    requires d.Valid() && d.order != []
    ensures d.PopFirst().Valid()
    ensures d.PopFirst() == d.Pop(d.order[0])
  {
    assert d.order == [d.order[0]] + d.order[1..];
    assert d.order[0] !in d.order[1..];
    WithoutAbsent(d.order[1..], d.order[0]);
  }

  /** Dropping the oldest entries until at most `limit` remain. */
  function Pruned<V>(d: OrderedDict<V>, limit: nat): OrderedDict<V>
    decreases |d.order|
  {
    if |d.order| <= limit then d else Pruned(d.PopFirst(), limit)
  }

  lemma {:induction false} PrunedKeepsLatest<V>(d: OrderedDict<V>, limit: nat)
    requires d.Valid()
    ensures Pruned(d, limit).Valid() && Pruned(d, limit).order == Latest(d.order, limit)
    ensures forall k :: k in Pruned(d, limit).entries ==> k in d.entries && Pruned(d, limit).entries[k] == d.entries[k]
    decreases |d.order|
  {
    if |d.order| > limit {
      PopFirstIsValid(d);
      PrunedKeepsLatest(d.PopFirst(), limit);
    }
  }

  // ---------- which keys are kept ----------

  /** The keys touched, each once, in the order of their latest touch. */
  function Recency(touched: seq<int>): seq<int> {
    if touched == [] then [] else
      var n := |touched| - 1;
      Without(Recency(touched[..n]), touched[n]) + [touched[n]]
  }

  lemma {:induction false} RecencyMembers(touched: seq<int>)
    ensures NoDuplicates(Recency(touched))
    ensures forall k :: k in Recency(touched) <==> k in touched
  {
    if touched != [] {
      var n := |touched| - 1;
      RecencyMembers(touched[..n]);
      WithoutKeepsDistinct(Recency(touched[..n]), touched[n]);
      WithoutMembers(Recency(touched[..n]), touched[n]);
      assert touched == touched[..n] + [touched[n]];
    }
  }

  function Latest(s: seq<int>, limit: nat): seq<int> {
    if |s| <= limit then s else s[|s| - limit..]
  }

  /** Keeping only the latest keys and touching one gives the latest keys of the longer history. */
  lemma {:induction false} LatestAfterTouch(all: seq<int>, k: int, limit: nat)
    requires NoDuplicates(all) && limit > 0
    ensures Latest(Without(Latest(all, limit), k) + [k], limit) == Latest(Without(all, k) + [k], limit)
  {
    if |all| > limit {
      var dropped, kept := all[..|all| - limit], all[|all| - limit..];
      assert all == dropped + kept;
      WithoutConcat(dropped, kept, k);
      assert NoDuplicates(kept);
      WithoutKeepsDistinct(kept, k);
      assert Without(all, k) + [k] == Without(dropped, k) + (Without(kept, k) + [k]);
      SuffixOfSuffix(Without(dropped, k), Without(kept, k) + [k], limit);
    }
  }

  lemma {:induction false} SuffixOfSuffix(a: seq<int>, b: seq<int>, limit: nat)
    requires |b| >= limit
    ensures Latest(a + b, limit) == Latest(b, limit)
  {
  }
}
