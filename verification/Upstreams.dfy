/** Weighted selection among a model's upstreams (pkg/core/proxy.go, selectUpstream). */
module Upstreams {
  import opened Common

  datatype Upstream = Upstream(id: string, enabled: bool, weight: int, keyUnreadable: bool)

  // ----- Weighted selection -----

  function Weight(u: Upstream): nat {
    if u.weight < 0 then 0 else u.weight
  }

  function EnabledOnly(ups: seq<Upstream>): (r: seq<Upstream>)
    ensures forall u :: u in r <==> u in ups && u.enabled
  {
    if ups == [] then []
    else
      var u := ups[|ups| - 1];
      assert ups == ups[..|ups| - 1] + [u];
      EnabledOnly(ups[..|ups| - 1]) + (if u.enabled then [u] else [])
  }

  function TotalWeight(ups: seq<Upstream>): nat {
    if ups == [] then 0 else TotalWeight(ups[..|ups| - 1]) + Weight(ups[|ups| - 1])
  }

  /** rand.Intn(n), for a draw that may be any number. */
  function Intn(draw: nat, n: int): (r: nat)
    requires n > 0
    ensures r < n && (draw < n ==> r == draw)
  {
    draw % n
  }

  /** The i-th enabled upstream owns the draws from the weight before it up to its own weight more. */
  predicate Owns(enabled: seq<Upstream>, i: int, r: nat) {
    0 <= i < |enabled| && TotalWeight(enabled[..i]) <= r < TotalWeight(enabled[..i + 1])
  }

  lemma {:induction false} WeightStep(ups: seq<Upstream>, i: nat)
    requires i < |ups|
    ensures TotalWeight(ups[..i + 1]) == TotalWeight(ups[..i]) + Weight(ups[i])
  {
    assert ups[..i + 1][..i] == ups[..i];
  }

  lemma {:induction false} WeightGrows(ups: seq<Upstream>, i: nat, j: nat)
    requires i <= j <= |ups|
    ensures TotalWeight(ups[..i]) <= TotalWeight(ups[..j])
  {
    if i < j {
      WeightGrows(ups, i, j - 1);
      WeightStep(ups, j - 1);
    }
  }

  /** No draw has two owners. */
  lemma {:induction false} OneOwner(enabled: seq<Upstream>, i: int, j: int, r: nat)
    requires Owns(enabled, i, r) && Owns(enabled, j, r)
    ensures i == j
  {
    if i < j { WeightGrows(enabled, i + 1, j); }
    if j < i { WeightGrows(enabled, j + 1, i); }
  }

  /** The position chosen among the enabled upstreams, when there is one. */
  function Chosen(ups: seq<Upstream>, draw: nat): (i: Option<nat>)
    ensures i.None? <==> EnabledOnly(ups) == []
    ensures i.Some? ==> i.value < |EnabledOnly(ups)|
  {
    var enabled := EnabledOnly(ups);
    var total := TotalWeight(enabled);
    if enabled == [] then None
    else if |enabled| == 1 then Some(0)
    else if total <= 0 then Some(Intn(draw, |enabled|))
    else Some(Owner(enabled, Intn(draw, total)))
  }

  function Owner(enabled: seq<Upstream>, r: nat): (i: nat)
    requires r < TotalWeight(enabled)
    ensures Owns(enabled, i, r)
  {
    OwnerFrom(enabled, 0, r)
  }

  function OwnerFrom(enabled: seq<Upstream>, from: nat, r: nat): (i: nat)
    requires from <= |enabled| && TotalWeight(enabled[..from]) <= r < TotalWeight(enabled)
    ensures Owns(enabled, i, r)
    decreases |enabled| - from
  {
    assert enabled[..|enabled|] == enabled;
    if r < TotalWeight(enabled[..from + 1]) then from else OwnerFrom(enabled, from + 1, r)
  }

  function Selected(ups: seq<Upstream>, draw: nat): Option<Upstream> {
    var chosen := Chosen(ups, draw);
    if chosen.None? then None else Some(EnabledOnly(ups)[chosen.value])
  }

  /**
    * pkg/core/proxy.go, selectUpstream. The return after the weighted loop is dead: with a positive
    * total weight the loop always finds the owner of the draw.
    */
  method SelectUpstream(ups: seq<Upstream>, draw: nat) returns (sel: Option<Upstream>)
    ensures sel == Selected(ups, draw)
  {
    var enabled: seq<Upstream> := [];
    var total := 0;
    for i := 0 to |ups|
      invariant enabled == EnabledOnly(ups[..i]) && total == TotalWeight(enabled)
    {
      assert ups[..i + 1][..i] == ups[..i];
      if ups[i].enabled {
        assert (enabled + [ups[i]])[..|enabled|] == enabled;
        enabled := enabled + [ups[i]];
        var w := ups[i].weight;
        if w < 0 {
          w := 0;
        }
        total := total + w;
      }
    }
    assert ups[..|ups|] == ups;
    if |enabled| == 0 {
      return None;
    }
    if |enabled| == 1 {
      return Some(enabled[0]);
    }
    if total <= 0 {
      return Some(enabled[Intn(draw, |enabled|)]);
    }
    var drawn := Intn(draw, total);
    var r: int := drawn;
    assert enabled[..|enabled|] == enabled;
    for i := 0 to |enabled|
      invariant 0 <= r && drawn == r + TotalWeight(enabled[..i])
    {
      WeightStep(enabled, i);
      var w := enabled[i].weight;
      if w < 0 {
        w := 0;
      }
      if r < w {
        OneOwner(enabled, i, Owner(enabled, drawn), drawn);
        return Some(enabled[i]);
      }
      r := r - w;
    }
    assert false;
  }

  /** The draws below the total weight that choose position i. */
  function DrawsFor(ups: seq<Upstream>, i: nat): set<nat> {
    set r: nat | 0 <= r < TotalWeight(EnabledOnly(ups)) && Chosen(ups, r) == Some(i)
  }

  function Interval(lo: nat, hi: nat): (s: set<nat>)
    requires lo <= hi
    ensures |s| == hi - lo && forall r :: r in s <==> lo <= r < hi
    decreases hi - lo
  {
    if lo == hi then {} else Interval(lo, hi - 1) + {hi - 1}
  }

  lemma {:induction false} ChosenIffOwned(ups: seq<Upstream>, r: nat, i: nat)
    requires |EnabledOnly(ups)| >= 2 && r < TotalWeight(EnabledOnly(ups)) && i < |EnabledOnly(ups)|
    ensures Chosen(ups, r) == Some(i) <==> Owns(EnabledOnly(ups), i, r)
  {
    var enabled := EnabledOnly(ups);
    if Owns(enabled, i, r) { OneOwner(enabled, i, Owner(enabled, r), r); }
  }

  /** With two or more enabled upstreams and some weight, each is chosen by exactly as many draws as it weighs. */
  lemma {:induction false} SharesAreExact(ups: seq<Upstream>, i: nat)
    requires i < |EnabledOnly(ups)| && |EnabledOnly(ups)| >= 2 && TotalWeight(EnabledOnly(ups)) > 0
    ensures var w := EnabledOnly(ups)[i].weight; |DrawsFor(ups, i)| == if w > 0 then w else 0
  {
    hide Chosen, Owns, TotalWeight, EnabledOnly;
    var enabled := EnabledOnly(ups);
    WeightStep(enabled, i);
    WeightGrows(enabled, i + 1, |enabled|);
    assert enabled[..|enabled|] == enabled;
    var lo, hi := TotalWeight(enabled[..i]), TotalWeight(enabled[..i + 1]);
    forall r: nat ensures r in DrawsFor(ups, i) <==> r in Interval(lo, hi) {
      if r < TotalWeight(enabled) {
        ChosenIffOwned(ups, r, i);
        OwnsIff(enabled, i, r);
      }
    }
    assert DrawsFor(ups, i) == Interval(lo, hi);
  }

  lemma OwnsIff(enabled: seq<Upstream>, i: nat, r: nat)
    requires i < |enabled|
    ensures Owns(enabled, i, r) <==> TotalWeight(enabled[..i]) <= r < TotalWeight(enabled[..i + 1])
  {
  }

  // ----- The enabled upstreams, and the cases without weights -----

  /** How many of the first n are enabled. */
  function EnabledBefore(ups: seq<Upstream>, n: nat): nat
    requires n <= |ups|
  {
    if n == 0 then 0 else EnabledBefore(ups, n - 1) + (if ups[n - 1].enabled then 1 else 0)
  }

  lemma {:induction false} EnabledFirst(ups: seq<Upstream>, n: nat)
    requires n <= |ups|
    ensures EnabledOnly(ups[..n]) <= EnabledOnly(ups)
    decreases |ups| - n
  {
    if n < |ups| {
      EnabledFirst(ups, n + 1);
      assert ups[..n + 1][..n] == ups[..n];
    } else {
      assert ups[..n] == ups;
    }
  }

  lemma {:induction false} EnabledCount(ups: seq<Upstream>, n: nat)
    requires n <= |ups|
    ensures |EnabledOnly(ups[..n])| == EnabledBefore(ups, n)
  {
    if n > 0 {
      EnabledCount(ups, n - 1);
      assert ups[..n][..n - 1] == ups[..n - 1];
    }
  }

  /** Exactly the enabled upstreams take part, each once for each time it is listed, in the order of the list. */
  lemma {:induction false} EnabledInOrder(ups: seq<Upstream>, i: nat)
    requires i < |ups|
    ensures |EnabledOnly(ups)| == EnabledBefore(ups, |ups|)
    ensures ups[i].enabled ==>
              EnabledBefore(ups, i) < |EnabledOnly(ups)| && EnabledOnly(ups)[EnabledBefore(ups, i)] == ups[i]
  {
    EnabledFirst(ups, i + 1);
    EnabledCount(ups, i);
    EnabledCount(ups, i + 1);
    EnabledCount(ups, |ups|);
    assert ups[..|ups|] == ups;
    assert ups[..i + 1][..i] == ups[..i];
  }

  /** Some weight is drawn from exactly when an enabled upstream has a positive one. */
  lemma {:induction false} SomeWeightIff(ups: seq<Upstream>)
    ensures TotalWeight(ups) > 0 <==> exists u :: u in ups && u.weight > 0
  {
    if ups != [] {
      var n := |ups| - 1;
      SomeWeightIff(ups[..n]);
      assert ups == ups[..n] + [ups[n]];
      assert ups[n] in ups;
    }
  }

  /** Without any weight each of the enabled upstreams is chosen by exactly one of as many draws as there are. */
  lemma {:induction false} EvenWithoutWeights(ups: seq<Upstream>, i: nat)
    requires i < |EnabledOnly(ups)| && forall u :: u in EnabledOnly(ups) ==> u.weight <= 0
    ensures forall r: nat :: r < |EnabledOnly(ups)| ==> (Chosen(ups, r) == Some(i) <==> r == i)
  {
    SomeWeightIff(EnabledOnly(ups));
  }

  /** The only enabled upstream is chosen whatever its weight and the draw. */
  lemma OnlyOneIsChosen(ups: seq<Upstream>, draw: nat)
    requires |EnabledOnly(ups)| == 1
    ensures Selected(ups, draw) == Some(EnabledOnly(ups)[0])
  {
  }
}
