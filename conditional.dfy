/** Lists built by a fixed series of guarded appends, the pattern
    `if condition: items.append(item)` that the agents use to collect
    explanations, recommendations, anomalies and insights. */
module Conditional {
  /** One guarded append: the item and whether its guard holds. */
  datatype Check<T> = Check(fires: bool, item: T)

  /** `items.append(x)` when `b` holds. */
  function Append<T>(s: seq<T>, b: bool, x: T): (r: seq<T>)
    ensures b ==> r == s + [x]
    ensures !b ==> r == s
  {
    if b then s + [x] else s
  }

  /** The items of the checks whose guard holds, in check order. */
  function Fired<T>(checks: seq<Check<T>>): (r: seq<T>)
    ensures |r| <= |checks|
    decreases |checks|
  {
    if checks == [] then []
    else
      var last := checks[|checks| - 1];
      Append(Fired(checks[..|checks| - 1]), last.fires, last.item)
  }

  /** Running the first `k + 1` checks is running the first `k` and then
      the next one. */
  lemma FiredStep<T>(checks: seq<Check<T>>, k: nat)
    requires k < |checks|
    ensures Fired(checks[..k + 1]) == Append(Fired(checks[..k]), checks[k].fires, checks[k].item)
  {
    assert checks[..k + 1][..k] == checks[..k];
  }

  /** A conditional append after a fixed prefix. */
  lemma AppendAfter<T>(prefix: seq<T>, s: seq<T>, b: bool, x: T)
    ensures Append(prefix + s, b, x) == prefix + Append(s, b, x)
  {
    if b {
      assert (prefix + s) + [x] == prefix + (s + [x]);
    }
  }

  lemma FiredAll<T>(checks: seq<Check<T>>)
    ensures Fired(checks[..|checks|]) == Fired(checks)
  {
    assert checks[..|checks|] == checks;
  }

  /** Some check for `x` fires. */
  predicate FiresFor<T(==)>(checks: seq<Check<T>>, x: T) {
    exists i :: 0 <= i < |checks| && checks[i] == Check(true, x)
  }

  /** Three checks run one after the other. */
  lemma FiredThree<T>(c: seq<Check<T>>)
    requires |c| == 3
    ensures Fired(c) == Append(Append(Append([], c[0].fires, c[0].item), c[1].fires, c[1].item), c[2].fires, c[2].item)
  {
    assert c[..0] == [];
    FiredStep(c, 0);
    FiredStep(c, 1);
    FiredStep(c, 2);
    FiredAll(c);
  }

  /** Five checks run one after the other. */
  lemma FiredFive<T>(c: seq<Check<T>>)
    requires |c| == 5
    ensures Fired(c) ==
      Append(Append(Append(Append(Append([], c[0].fires, c[0].item), c[1].fires, c[1].item),
                           c[2].fires, c[2].item), c[3].fires, c[3].item), c[4].fires, c[4].item)
  {
    assert c[..0] == [];
    FiredStep(c, 0);
    FiredStep(c, 1);
    FiredStep(c, 2);
    FiredStep(c, 3);
    FiredStep(c, 4);
    FiredAll(c);
  }

  /** An item is listed exactly when some check for it fires. */
  lemma {:induction false} FiredMembers<T>(checks: seq<Check<T>>)
    ensures forall x :: x in Fired(checks) <==> FiresFor(checks, x)
    decreases |checks|
  {
    if checks != [] {
      var init := checks[..|checks| - 1];
      var last := checks[|checks| - 1];
      FiredMembers(init);
      forall x | x in Fired(checks) ensures FiresFor(checks, x) {
        if x in Fired(init) {
          assert FiresFor(init, x);
          var i :| 0 <= i < |init| && init[i] == Check(true, x);
          assert checks[i] == init[i];
        } else {
          assert checks[|checks| - 1] == Check(true, x);
        }
      }
      forall x | FiresFor(checks, x) ensures x in Fired(checks) {
        var i :| 0 <= i < |checks| && checks[i] == Check(true, x);
        if i < |init| {
          assert init[i] == checks[i];
          assert FiresFor(init, x);
        }
      }
    }
  }

  /** The keys of the items strictly increase along `s`. */
  predicate Increasing<T>(s: seq<T>, key: T -> nat) {
    forall i, j :: 0 <= i < j < |s| ==> key(s[i]) < key(s[j])
  }

  /** The checks are in increasing key order. */
  predicate ChecksIncreasing<T>(checks: seq<Check<T>>, key: T -> nat) {
    forall i, j :: 0 <= i < j < |checks| ==> key(checks[i].item) < key(checks[j].item)
  }

  /** Checks in increasing key order list their items in increasing key
      order, so at most one item per key. */
  lemma {:induction false} FiredIncreasing<T>(checks: seq<Check<T>>, key: T -> nat)
    requires ChecksIncreasing(checks, key)
    ensures Increasing(Fired(checks), key)
    decreases |checks|
  {
    if checks != [] {
      var init := checks[..|checks| - 1];
      var last := checks[|checks| - 1];
      FiredIncreasing(init, key);
      FiredMembers(init);
      var s := Fired(init);
      forall i | 0 <= i < |s| ensures key(s[i]) < key(last.item) {
        assert s[i] in s;
        assert FiresFor(init, s[i]);
        var k :| 0 <= k < |init| && init[k] == Check(true, s[i]);
        assert init[k] == checks[k];
      }
    }
  }

  /** When the checks are keyed by position, an item whose key is `k` is
      listed exactly when the k-th check fires. */
  lemma KeyedFires<T>(checks: seq<Check<T>>, x: T, k: nat, key: T -> nat)
    requires k < |checks| && checks[k].item == x
    requires forall i :: 0 <= i < |checks| ==> key(checks[i].item) == i
    ensures x in Fired(checks) <==> checks[k].fires
  {
    FiredMembers(checks);
    if FiresFor(checks, x) {
      var i :| 0 <= i < |checks| && checks[i] == Check(true, x);
      assert key(checks[i].item) == key(x) == k;
    }
  }
}
