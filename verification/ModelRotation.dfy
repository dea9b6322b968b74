/** Weighted round-robin choice of an AI model (selectWeightedModel and the request counter,
    internal/service/ai_service.go). */
module ModelRotation {
  import opened Money
  import opened Sums

  datatype WeightedModel = WeightedModel(name: string, weight: int)

  const COUNTER_SIZE: nat := 0x1_0000_0000_0000_0000

  ghost function Weight(): WeightedModel -> int { (m: WeightedModel) => m.weight }

  ghost function Total(models: seq<WeightedModel>): int { Sum(models, Weight()) }

  /** Weight of the first `i` models. */
  ghost function Prefix(models: seq<WeightedModel>, i: nat): int
    requires i <= |models|
  {
    Sum(models[..i], Weight())
  }

  /** Position `j` is too early for `val`. */
  ghost predicate TooEarly(models: seq<WeightedModel>, val: int, j: nat)
  {
    j < |models| && Prefix(models, j + 1) <= val
  }

  /** The first position from `i` on whose cumulated weight exceeds `val`. */
  ghost function Pick(models: seq<WeightedModel>, val: int, i: nat): (p: nat)
    requires i < |models| && val < Prefix(models, |models|)
    ensures i <= p < |models| && val < Prefix(models, p + 1)
    ensures forall j :: i <= j < p ==> TooEarly(models, val, j)
    decreases |models| - i
  {
    if val < Prefix(models, i + 1) || i + 1 == |models| then i else Pick(models, val, i + 1)
  }

  /** The position chosen for a counter value. */
  ghost function Chosen(models: seq<WeightedModel>, count: nat): nat
    requires Total(models) > 0
    ensures Chosen(models, count) < |models|
  {
    WholePrefix(models);
    Pick(models, count % Total(models), 0)
  }

  lemma WholePrefix(models: seq<WeightedModel>)
    requires Total(models) > 0
    ensures |models| > 0 && Prefix(models, |models|) == Total(models)
  {
    assert models[..|models|] == models;
  }

  class AiService {
    var requestCounter: nat

    constructor ()
      ensures requestCounter == 0
    {
      requestCounter := 0;
    }

    /** A request bumps the 64-bit counter before choosing. */
    method NextRequest()
      requires requestCounter < COUNTER_SIZE
      modifies this
      ensures requestCounter == if old(requestCounter) == 0xFFFF_FFFF_FFFF_FFFF then 0 else old(requestCounter) + 1
    {
      requestCounter := (requestCounter + 1) % COUNTER_SIZE;
    }

    /** Never falls through its loop: with a positive total some position is always chosen. */
    method SelectWeightedModel(models: seq<WeightedModel>) returns (name: string)
      ensures Total(models) > 0 ==> name == models[Chosen(models, requestCounter)].name
      ensures Total(models) <= 0 ==> name == if models == [] then "" else models[0].name
    {
      var totalWeight := 0;
      for i := 0 to |models|
        invariant totalWeight == Prefix(models, i)
      {
        PrefixStep(models, i);
        totalWeight := totalWeight + models[i].weight;
      }
      assert models[..|models|] == models;
      if totalWeight <= 0 {
        return if |models| > 0 then models[0].name else "";
      }
      var val := requestCounter % totalWeight;
      var current := 0;
      ghost var p := Chosen(models, requestCounter);
      ChosenIsFirst(models, requestCounter);
      for i := 0 to |models|
        invariant current == Prefix(models, i) && i <= p
      {
        PrefixStep(models, i);
        current := current + models[i].weight;
        assert i < p ==> TooEarly(models, val, i);
        if val < current {
          return models[i].name;
        }
      }
      assert false;  // the source would fall back to the first model here
    }
  }

  lemma ChosenIsFirst(models: seq<WeightedModel>, count: nat)
    requires Total(models) > 0
    ensures var p, val := Chosen(models, count), count % Total(models);
            val < Prefix(models, p + 1) && forall j :: 0 <= j < p ==> TooEarly(models, val, j)
  {
    WholePrefix(models);
  }

  lemma PrefixStep(models: seq<WeightedModel>, i: nat)
    requires i < |models|
    ensures Prefix(models, i + 1) == Prefix(models, i) + models[i].weight
  {
    assert models[..i + 1] == models[..i] + [models[i]];
    SumAppend(models[..i], models[i], Weight());
  }

  ghost predicate NonNegative(models: seq<WeightedModel>)
  {
    forall k :: 0 <= k < |models| ==> models[k].weight >= 0
  }

  lemma {:induction false} PrefixMonotone(models: seq<WeightedModel>, i: nat, j: nat)
    requires NonNegative(models) && i <= j <= |models|
    ensures Prefix(models, i) <= Prefix(models, j)
    decreases j
  {
    if i < j {
      PrefixStep(models, j - 1);
      PrefixMonotone(models, i, j - 1);
    }
  }

  /** Position `i` owns the residues from its prefix up to, not including, the next. */
  lemma ChosenIff(models: seq<WeightedModel>, count: nat, i: nat)
    requires NonNegative(models) && Total(models) > 0 && i < |models|
    ensures Chosen(models, count) == i <==> Prefix(models, i) <= count % Total(models) < Prefix(models, i + 1)
  {
    hide Sum;
    WholePrefix(models);
    var p := Chosen(models, count);
    var val := count % Total(models);
    if p == i {
      assert i > 0 ==> TooEarly(models, val, i - 1);
      assert Prefix(models, 0) == 0 by { SumZero(models[..0], Weight()); }
    } else if p < i {
      PrefixMonotone(models, p + 1, i);
    } else {
      assert TooEarly(models, val, i);
    }
  }

  /** How often position `i` is chosen over the `n` counter values from `start`. */
  ghost function Times(models: seq<WeightedModel>, start: nat, n: nat, i: nat): nat
    requires Total(models) > 0
  {
    if n == 0 then 0
    else Times(models, start, n - 1, i) + if Chosen(models, start + n - 1) == i then 1 else 0
  }

  /** From zero, the first `n` values choose position `i` as often as they fall into its residues. */
  lemma {:induction false} TimesFromZero(models: seq<WeightedModel>, n: nat, i: nat)
    requires NonNegative(models) && Total(models) > 0 && i < |models| && n <= Total(models)
    ensures Times(models, 0, n, i) ==
              if n <= Prefix(models, i) then 0
              else if n <= Prefix(models, i + 1) then n - Prefix(models, i) else models[i].weight
    decreases n
  {
    hide Sum, Chosen;
    PrefixStep(models, i);
    PrefixMonotone(models, 0, i);
    assert Prefix(models, 0) == 0 by { SumZero(models[..0], Weight()); }
    if n > 0 {
      TimesFromZero(models, n - 1, i);
      ModIs(n - 1, Total(models), 0, n - 1);
      ChosenIff(models, n - 1, i);
    }
  }

  /** A value one full cycle later chooses the same position. */
  lemma Periodic(models: seq<WeightedModel>, count: nat)
    requires Total(models) > 0
    ensures Chosen(models, count + Total(models)) == Chosen(models, count)
  {
    hide Sum;
    var w := Total(models);
    assert count + w == w * (count / w + 1) + count % w;
    ModIs(count + w, w, count / w + 1, count % w);
  }

  lemma ModIs(a: int, w: int, q: int, r: int)
    requires w > 0 && a == w * q + r && 0 <= r < w
    ensures a % w == r
  {
    assert w * (a / w) == w * q + r - a % w;
    Cancel(w, a / w, q);
    Cancel(w, q, a / w);
  }

  lemma {:induction false} DropFirst(models: seq<WeightedModel>, start: nat, n: nat, i: nat)
    requires Total(models) > 0 && n > 0
    ensures Times(models, start, n, i) ==
              (if Chosen(models, start) == i then 1 else 0) + Times(models, start + 1, n - 1, i)
    decreases n
  {
    hide Chosen, Total;
    if n > 1 {
      DropFirst(models, start, n - 1, i);
    }
  }

  /** Over any full cycle of counter values, from any start, every position is chosen exactly as often as its weight
      says. */
  lemma {:induction false} EveryCycleIsFair(models: seq<WeightedModel>, start: nat, i: nat)
    requires NonNegative(models) && Total(models) > 0 && i < |models|
    ensures Times(models, start, Total(models), i) == models[i].weight
    decreases start
  {
    hide Chosen, Sum, Times;
    var w := Total(models);
    if start == 0 {
      TimesFromZero(models, w, i);
      WholePrefix(models);
      PrefixMonotone(models, i + 1, |models|);
      PrefixStep(models, i);
    } else {
      EveryCycleIsFair(models, start - 1, i);
      DropFirst(models, start - 1, w, i);
      LastOf(models, start, w, i);
      Periodic(models, start - 1);
    }
  }

  lemma LastOf(models: seq<WeightedModel>, start: nat, n: nat, i: nat)
    requires Total(models) > 0 && n > 0
    ensures Times(models, start, n, i) ==
              Times(models, start, n - 1, i) + if Chosen(models, start + n - 1) == i then 1 else 0
  {
    hide Chosen;
  }
}
