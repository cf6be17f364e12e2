/**
 The merge primitives of the configurator (`dict.update` and `dict.setdefault`)
 and the tier fold that `update()` performs, with the precedence contract
 proved against an independent ranking of the tiers.
 */
module Merge {
  import opened Values

  /** `a.update(b)`: every key of `b` takes its value from `b`; the other keys of `a` are kept. */
  function Update(a: Mapping, b: Mapping): (r: Mapping)
    ensures r.Keys == a.Keys + b.Keys
    ensures forall k :: k in b ==> r[k] == b[k]
    ensures forall k :: k in a && k !in b ==> r[k] == a[k]
  {
    a + b
  }

  /** `m.setdefault(k, v)`: insert `k` only when it is absent; no existing value changes. */
  function SetDefault(m: Mapping, k: string, v: Value): (r: Mapping)
    ensures r.Keys == m.Keys + {k}
    ensures forall j :: j in m ==> r[j] == m[j]
    ensures k !in m ==> r[k] == v
  {
    if k in m then m else m[k := v]
  }

  /** `m` after `setdefault(k, d[k])` for every key `k` of `d`. */
  function SetDefaults(m: Mapping, d: Mapping): (r: Mapping)
    ensures r.Keys == m.Keys + d.Keys
    ensures forall k :: k in m ==> r[k] == m[k]
    ensures forall k :: k in d && k !in m ==> r[k] == d[k]
  {
    Update(d, m)
  }

  /** One more `setdefault` extends the set of defaults already applied, whatever the order. */
  lemma SetDefaultsStep(m: Mapping, d: Mapping, k: string, v: Value)
    requires k !in d
    ensures SetDefault(SetDefaults(m, d), k, v) == SetDefaults(m, d[k := v])
  {
  }

  /**
   The unified object after `update()`: the system, user and local tiers are
   folded into `base` in that order, and the system tier once more when
   `systemOverride` is set.
   */
  function Merged(base: Mapping, sys: Mapping, usr: Mapping, loc: Mapping, systemOverride: bool): Mapping
  {
    var folded := Update(Update(Update(base, sys), usr), loc);
    if systemOverride then Update(folded, sys) else folded
  }

  /** The layers that take part in a merge: the prior object and the three tiers. */
  datatype Layer = Prior | SystemTier | UserTier | LocalTier

  /**
   The precedence policy, highest first: local over user over system over
   the prior object; under override, system moves to the top.
   */
  function Ranking(systemOverride: bool): seq<Layer>
  {
    if systemOverride then [SystemTier, LocalTier, UserTier, Prior]
    else [LocalTier, UserTier, SystemTier, Prior]
  }

  function LayerMapping(l: Layer, base: Mapping, sys: Mapping, usr: Mapping, loc: Mapping): Mapping
  {
    match l
    case Prior => base
    case SystemTier => sys
    case UserTier => usr
    case LocalTier => loc
  }

  /** The value of `k` in the highest-ranked layer that has it. */
  function Winner(k: string, ranking: seq<Layer>, base: Mapping, sys: Mapping, usr: Mapping, loc: Mapping): Option<Value>
  {
    if ranking == [] then None
    else
      var m := LayerMapping(ranking[0], base, sys, usr, loc);
      if k in m then Some(m[k]) else Winner(k, ranking[1..], base, sys, usr, loc)
  }

  lemma WinnerStep(k: string, ranking: seq<Layer>, base: Mapping, sys: Mapping, usr: Mapping, loc: Mapping)
    requires ranking != []
    ensures var m := LayerMapping(ranking[0], base, sys, usr, loc);
            Winner(k, ranking, base, sys, usr, loc)
              == if k in m then Some(m[k]) else Winner(k, ranking[1..], base, sys, usr, loc)
  {
  }

  /** The fold agrees with the ranking, key by key, presence and value alike. */
  lemma MergedFollowsRanking(base: Mapping, sys: Mapping, usr: Mapping, loc: Mapping, systemOverride: bool)
    ensures forall k :: Lookup(Merged(base, sys, usr, loc, systemOverride), k)
                          == Winner(k, Ranking(systemOverride), base, sys, usr, loc)
  {
    var r := Merged(base, sys, usr, loc, systemOverride);
    var rank := Ranking(systemOverride);
    forall k
      ensures Lookup(r, k) == Winner(k, rank, base, sys, usr, loc)
    {
      WinnerStep(k, rank, base, sys, usr, loc);
      WinnerStep(k, rank[1..], base, sys, usr, loc);
      WinnerStep(k, rank[2..], base, sys, usr, loc);
      WinnerStep(k, rank[3..], base, sys, usr, loc);
      assert rank[1..][1..] == rank[2..] && rank[2..][1..] == rank[3..] && rank[3..][1..] == [];
    }
  }

  /** Merging never loses a key, and every tier-only key is present, with or without override. */
  lemma MergedKeys(base: Mapping, sys: Mapping, usr: Mapping, loc: Mapping, systemOverride: bool)
    ensures Merged(base, sys, usr, loc, systemOverride).Keys == base.Keys + sys.Keys + usr.Keys + loc.Keys
  {
  }

  /**
   Override changes only keys that the system tier has: there the system value
   wins; every other key keeps the value it has without override.
   */
  lemma OverrideOnlyAffectsSystemKeys(base: Mapping, sys: Mapping, usr: Mapping, loc: Mapping)
    ensures Merged(base, sys, usr, loc, true).Keys == Merged(base, sys, usr, loc, false).Keys
    ensures forall k :: k in sys ==> Merged(base, sys, usr, loc, true)[k] == sys[k]
    ensures forall k :: k !in sys && k in Merged(base, sys, usr, loc, false) ==>
              Merged(base, sys, usr, loc, true)[k] == Merged(base, sys, usr, loc, false)[k]
  {
  }

  /** Re-running `update()` with unchanged tiers gives back the same object. */
  lemma MergedIdempotent(base: Mapping, sys: Mapping, usr: Mapping, loc: Mapping, systemOverride: bool)
    ensures var once := Merged(base, sys, usr, loc, systemOverride);
            Merged(once, sys, usr, loc, systemOverride) == once
  {
  }

  /**
   When the tiers have pairwise disjoint keys the override flag makes no
   difference, and the result is the union of the prior object and the tiers.
   */
  lemma DisjointTiersIgnoreOverride(base: Mapping, sys: Mapping, usr: Mapping, loc: Mapping)
    requires sys.Keys !! usr.Keys && sys.Keys !! loc.Keys && usr.Keys !! loc.Keys
    ensures Merged(base, sys, usr, loc, true) == Merged(base, sys, usr, loc, false)
    ensures forall k :: k in sys ==> Merged(base, sys, usr, loc, false)[k] == sys[k]
    ensures forall k :: k in usr ==> Merged(base, sys, usr, loc, false)[k] == usr[k]
    ensures forall k :: k in loc ==> Merged(base, sys, usr, loc, false)[k] == loc[k]
  {
  }

  /**
   Defaults seeded before the merge: a default survives when no tier sets its
   key, and a system value beats it (the general order is `MergedFollowsRanking`).
   */
  lemma DefaultsLowestPrecedence(d: Mapping, sys: Mapping, usr: Mapping, loc: Mapping, systemOverride: bool)
    ensures var r := Merged(SetDefaults(map[], d), sys, usr, loc, systemOverride);
            && (forall k :: k in d && k !in sys && k !in usr && k !in loc ==> r[k] == d[k])
            && (forall k :: k in sys && k !in usr && k !in loc ==> r[k] == sys[k])
  {
  }
}
