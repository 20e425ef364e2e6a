/** The evaluator: an on/off decision and a value, through prerequisites followed to a bounded depth. */
module Evaluator {
  import opened Options
  import opened Flags
  import Variants

  const MAX_PREREQUISITE_DEPTH := 10

  function EnabledDefault(flag: Flag): FlagValue {
    if flag.flagType == BooleanFlag then BoolValue(true) else NullValue
  }

  function DisabledResult(flag: Flag): EvalResult {
    EvalResult(false, flag.disabledValue.GetOr(BoolValue(false)))
  }

  /** The first matching rule. */
  function FirstMatch(o: Oracle, rules: seq<TargetingRule>, user: User): (r: Option<TargetingRule>)
    ensures r.Some? <==> exists i :: 0 <= i < |rules| && o.matches(rules[i], user)
    ensures r.Some? ==> exists i :: 0 <= i < |rules| && r.value == rules[i] && o.matches(rules[i], user)
                                    && forall j :: 0 <= j < i ==> !o.matches(rules[j], user)
  {
    if |rules| == 0 then None
    else if o.matches(rules[0], user) then Some(rules[0])
    else
      var rest := FirstMatch(o, rules[1..], user);
      assert rest.Some? ==> exists i :: 0 <= i < |rules[1..]| && rest.value == rules[1..][i]
                                       && rules[1..][i] == rules[i + 1] && o.matches(rules[1..][i], user)
                                       && forall j :: 0 < j < i + 1 ==> rules[j] == rules[1..][j - 1];
      assert rest.None? ==> forall i :: 0 < i < |rules| ==> rules[i] == rules[1..][i - 1];
      rest
  }

  predicate Admits(rollout: Option<u32>, hash: u32) {
    match rollout
    case None => true
    case Some(percentage) => percentage != 0 && (percentage >= 100 || hash % 100 < percentage)
  }

  predicate InRollout(o: Oracle, flag: Flag, user: User) {
    Admits(flag.rollout, o.hash(flag.key + ":" + user.key))
  }

  /** What a flag that is switched on and has its prerequisites resolves to: rules first, then the rollout. */
  function Decide(o: Oracle, flag: Flag, user: User): EvalResult {
    match FirstMatch(o, flag.rules, user)
    case Some(rule) =>
      EvalResult(true, rule.variant.GetOr(flag.defaultValue.GetOr(EnabledDefault(flag))))
    case None =>
      if !InRollout(o, flag, user) then DisabledResult(flag)
      else if |flag.variants| > 0 then
        EvalResult(true, Variants.PickedValue(flag.variants, o.hash(flag.key + ":" + user.key + ":variant")))
      else EvalResult(true, flag.defaultValue.GetOr(EnabledDefault(flag)))
  }

  function Remaining(depth: nat): nat {
    if depth < MAX_PREREQUISITE_DEPTH then MAX_PREREQUISITE_DEPTH - depth else 0
  }

  function EvaluateAtDepth(o: Oracle, flag: Flag, user: User, store: map<string, Flag>, depth: nat): EvalResult
    decreases Remaining(depth), 1
  {
    if !flag.isEnabled then DisabledResult(flag)
    else if !PrerequisitesSatisfied(o, flag, user, store, depth) then DisabledResult(flag)
    else Decide(o, flag, user)
  }

  predicate PrerequisitesSatisfied(o: Oracle, flag: Flag, user: User, store: map<string, Flag>, depth: nat)
    decreases Remaining(depth), 0
  {
    || |flag.prerequisites| == 0
    || (depth < MAX_PREREQUISITE_DEPTH
        && forall i :: 0 <= i < |flag.prerequisites| ==>
             var p := flag.prerequisites[i];
             p.flagKey in store
             && var result := EvaluateAtDepth(o, store[p.flagKey], user, store, depth + 1);
                result.enabled && (p.requiredValue.Some? ==> result.value == p.requiredValue.value))
  }

  function EvaluateVariant(o: Oracle, flag: Flag, user: User, store: map<string, Flag>): EvalResult {
    EvaluateAtDepth(o, flag, user, store, 0)
  }

  predicate Evaluate(o: Oracle, flag: Flag, user: User, store: map<string, Flag>) {
    EvaluateVariant(o, flag, user, store).enabled
  }

  /** When a flag is on: its switch and its prerequisites say so, and a rule matches or the rollout admits. */
  lemma EnabledIff(o: Oracle, flag: Flag, user: User, store: map<string, Flag>, depth: nat)
    ensures EvaluateAtDepth(o, flag, user, store, depth).enabled
       <==> flag.isEnabled && PrerequisitesSatisfied(o, flag, user, store, depth)
            && ((exists i :: 0 <= i < |flag.rules| && o.matches(flag.rules[i], user)) || InRollout(o, flag, user))
  {
  }

  /** The first of these that there is: the disabled value; the variant of the first matching rule; the weighted
      variant, unless a rule matched; the default value; the default of the flag's type. */
  lemma ValueComesFrom(o: Oracle, flag: Flag, user: User, store: map<string, Flag>, depth: nat)
    ensures var r := EvaluateAtDepth(o, flag, user, store, depth);
            && (!r.enabled ==> r.value == flag.disabledValue.GetOr(BoolValue(false)))
            && (r.enabled ==> forall i :: IsFirstMatch(o, flag.rules, user, i) ==>
                  r.value == flag.rules[i].variant.GetOr(flag.defaultValue.GetOr(EnabledDefault(flag))))
            && (r.enabled && (forall i :: 0 <= i < |flag.rules| ==> !o.matches(flag.rules[i], user)) ==>
                  r.value == if |flag.variants| > 0
                             then Variants.PickedValue(flag.variants, o.hash(flag.key + ":" + user.key + ":variant"))
                             else flag.defaultValue.GetOr(EnabledDefault(flag)))
  {
    var m := FirstMatch(o, flag.rules, user);
    if m.Some? {
      var k :| 0 <= k < |flag.rules| && m.value == flag.rules[k] && o.matches(flag.rules[k], user)
               && forall j :: 0 <= j < k ==> !o.matches(flag.rules[j], user);
      forall i | IsFirstMatch(o, flag.rules, user, i) ensures i == k {
        assert o.matches(flag.rules[i], user) && o.matches(flag.rules[k], user);
      }
    }
  }

  predicate IsFirstMatch(o: Oracle, rules: seq<TargetingRule>, user: User, i: int) {
    0 <= i < |rules| && o.matches(rules[i], user) && forall j :: 0 <= j < i ==> !o.matches(rules[j], user)
  }

  // ---- The rollout gate over all hashes ----

  /** The number of hashes below `n` that the gate admits. */
  function Admitted(rollout: Option<u32>, n: nat): nat
    requires n <= Variants.HASHES
  {
    if n == 0 then 0 else Admitted(rollout, n - 1) + (if Admits(rollout, n - 1) then 1 else 0)
  }

  /** A percentage below 100 admits that many of every 100 hashes: of all 2^32 hashes exactly p times
      floor(2^32 / 100), and as many of the remaining 96 as the percentage allows. */
  lemma RolloutShare(rollout: Option<u32>)
    ensures Admitted(rollout, Variants.HASHES) ==
            match rollout
            case None => Variants.HASHES
            case Some(p) =>
              if p >= 100 then Variants.HASHES
              else p * (Variants.HASHES / 100) + (if p <= 96 then p else 96)
  {
    match rollout {
      case None => AdmitsAll(rollout, Variants.HASHES);
      case Some(p) =>
        if p >= 100 {
          AdmitsAll(rollout, Variants.HASHES);
        } else {
          AdmittedAreCounted(p, Variants.HASHES);
          Variants.ModuloCount(100, 0, p, Variants.HASHES / 100, Variants.HASHES % 100);
        }
    }
  }

  lemma {:induction false} AdmitsAll(rollout: Option<u32>, n: nat)
    requires n <= Variants.HASHES && (rollout.Some? ==> rollout.value >= 100)
    ensures Admitted(rollout, n) == n
  {
    if n > 0 { AdmitsAll(rollout, n - 1); }
  }

  lemma {:induction false} AdmittedAreCounted(p: u32, n: nat)
    requires p < 100 && n <= Variants.HASHES
    ensures Admitted(Some(p), n) == Variants.CountIn(100, 0, p, n)
  {
    if n > 0 { AdmittedAreCounted(p, n - 1); }
  }
}

/** What prerequisites mean without a depth guard, and how the guarded evaluator relates to it. */
module Prerequisites {
  import opened Options
  import opened Flags
  import opened Evaluator

  /** The prerequisite names a stored flag that is in `on` and resolves to the required value. */
  predicate Met(o: Oracle, p: Prerequisite, user: User, store: map<string, Flag>, on: set<string>) {
    && p.flagKey in store
    && p.flagKey in on
    && (p.requiredValue.Some? ==> Decide(o, store[p.flagKey], user).value == p.requiredValue.value)
  }

  /** The flag is enabled if exactly the stored flags `on` are. */
  predicate EnabledGiven(o: Oracle, flag: Flag, user: User, store: map<string, Flag>, on: set<string>) {
    && flag.isEnabled
    && Decide(o, flag, user).enabled
    && forall i {:trigger Met(o, flag.prerequisites[i], user, store, on)} ::
         0 <= i < |flag.prerequisites| ==> Met(o, flag.prerequisites[i], user, store, on)
  }

  function ResultGiven(o: Oracle, flag: Flag, user: User, store: map<string, Flag>, on: set<string>): EvalResult {
    if EnabledGiven(o, flag, user, store, on) then Decide(o, flag, user) else DisabledResult(flag)
  }

  /** One round of inference over the whole store. */
  function Round(o: Oracle, user: User, store: map<string, Flag>, on: set<string>): set<string> {
    set k | k in store && EnabledGiven(o, store[k], user, store, on)
  }

  function Approximant(o: Oracle, user: User, store: map<string, Flag>, n: nat): set<string> {
    if n == 0 then {} else Round(o, user, store, Approximant(o, user, store, n - 1))
  }

  /** The unbounded meaning: the flags that are on by finitely many rounds of inference. */
  function Meaning(o: Oracle, user: User, store: map<string, Flag>): set<string> {
    Approximant(o, user, store, |store|)
  }

  function UnboundedResult(o: Oracle, flag: Flag, user: User, store: map<string, Flag>): EvalResult {
    ResultGiven(o, flag, user, store, Meaning(o, user, store))
  }

  lemma RoundMonotone(o: Oracle, user: User, store: map<string, Flag>, on: set<string>, more: set<string>)
    requires on <= more
    ensures Round(o, user, store, on) <= Round(o, user, store, more)
  {
    forall k | k in Round(o, user, store, on) ensures k in Round(o, user, store, more) {
      EnabledGivenMore(o, store[k], user, store, on, more);
    }
  }

  lemma {:induction false} ApproximantsGrow(o: Oracle, user: User, store: map<string, Flag>, n: nat)
    ensures Approximant(o, user, store, n) <= Approximant(o, user, store, n + 1) <= store.Keys
  {
    if n > 0 {
      ApproximantsGrow(o, user, store, n - 1);
      RoundMonotone(o, user, store, Approximant(o, user, store, n - 1), Approximant(o, user, store, n));
    }
  }

  lemma {:induction false} ApproximantsGrowFrom(o: Oracle, user: User, store: map<string, Flag>, m: nat, n: nat)
    requires m <= n
    ensures Approximant(o, user, store, m) <= Approximant(o, user, store, n)
    decreases n - m
  {
    if m < n {
      ApproximantsGrow(o, user, store, m);
      ApproximantsGrowFrom(o, user, store, m + 1, n);
    }
  }

  lemma ProperSubsetSize(a: set<string>, b: set<string>)
    requires a <= b && a != b
    ensures |a| < |b|
  {
    assert b == a + (b - a);
    assert b - a != {};
  }

  /** Each round before stabilising adds a flag. */
  lemma {:induction false} Stabilises(o: Oracle, user: User, store: map<string, Flag>, n: nat)
    ensures Stable(o, user, store, n) || |Approximant(o, user, store, n)| >= n
  {
    hide Round;
    if n > 0 {
      Stabilises(o, user, store, n - 1);
      if Stable(o, user, store, n - 1) {
        StaysStable(o, user, store, n - 1);
      } else {
        ApproximantsGrow(o, user, store, n - 1);
        ProperSubsetSize(Approximant(o, user, store, n - 1), Approximant(o, user, store, n));
      }
    }
  }

  predicate Stable(o: Oracle, user: User, store: map<string, Flag>, n: nat) {
    Approximant(o, user, store, n + 1) == Approximant(o, user, store, n)
  }

  lemma StaysStable(o: Oracle, user: User, store: map<string, Flag>, n: nat)
    requires Stable(o, user, store, n)
    ensures Stable(o, user, store, n + 1)
  {
  }

  /** The meaning is the least set of stored flags closed under inference. */
  lemma MeaningIsLeastFixpoint(o: Oracle, user: User, store: map<string, Flag>)
    ensures Round(o, user, store, Meaning(o, user, store)) == Meaning(o, user, store)
    ensures forall t: set<string> :: Round(o, user, store, t) <= t ==> Meaning(o, user, store) <= t
  {
    var n := |store|;
    Stabilises(o, user, store, n);
    ApproximantsGrow(o, user, store, n);
    ApproximantsGrow(o, user, store, n + 1);
    var at, next := Approximant(o, user, store, n), Approximant(o, user, store, n + 1);
    if at != next {
      ProperSubsetSize(at, next);
      SubsetSize(next, store.Keys);
    }
    forall t: set<string> | Round(o, user, store, t) <= t ensures Meaning(o, user, store) <= t {
      BelowClosed(o, user, store, n, t);
    }
  }

  lemma SubsetSize(a: set<string>, b: set<string>)
    requires a <= b
    ensures |a| <= |b|
  {
    assert b == a + (b - a);
  }

  lemma {:induction false} BelowClosed(o: Oracle, user: User, store: map<string, Flag>, n: nat, t: set<string>)
    requires Round(o, user, store, t) <= t
    ensures Approximant(o, user, store, n) <= t
  {
    if n > 0 {
      BelowClosed(o, user, store, n - 1, t);
      RoundMonotone(o, user, store, Approximant(o, user, store, n - 1), t);
    }
  }

  lemma ApproximantBelowMeaning(o: Oracle, user: User, store: map<string, Flag>, n: nat)
    ensures Approximant(o, user, store, n) <= Meaning(o, user, store)
  {
    MeaningIsLeastFixpoint(o, user, store);
    BelowClosed(o, user, store, n, Meaning(o, user, store));
  }

  /** The evaluator at a depth is exactly the approximant of the rounds it has left. */
  lemma {:induction false} DepthIsApproximant(o: Oracle, flag: Flag, user: User, store: map<string, Flag>, depth: nat)
    ensures EvaluateAtDepth(o, flag, user, store, depth)
         == ResultGiven(o, flag, user, store, Approximant(o, user, store, Remaining(depth)))
    decreases Remaining(depth)
  {
    if depth < MAX_PREREQUISITE_DEPTH {
      forall i | 0 <= i < |flag.prerequisites| && flag.prerequisites[i].flagKey in store
        ensures EvaluateAtDepth(o, store[flag.prerequisites[i].flagKey], user, store, depth + 1)
             == ResultGiven(o, store[flag.prerequisites[i].flagKey], user, store,
                            Approximant(o, user, store, Remaining(depth + 1)))
      {
        DepthIsApproximant(o, store[flag.prerequisites[i].flagKey], user, store, depth + 1);
      }
      assert Approximant(o, user, store, Remaining(depth))
          == Round(o, user, store, Approximant(o, user, store, Remaining(depth + 1)));
      assert PrerequisitesSatisfied(o, flag, user, store, depth) <==>
             forall i :: 0 <= i < |flag.prerequisites| ==>
               Met(o, flag.prerequisites[i], user, store, Approximant(o, user, store, Remaining(depth)));
    } else if |flag.prerequisites| > 0 {
      assert !Met(o, flag.prerequisites[0], user, store, {});
    }
  }

  /** A bounded approximation from below: whatever is enabled deeper down is enabled, with the same value,
      nearer the top, and in the unbounded meaning. */
  lemma EnabledIsStable(o: Oracle, flag: Flag, user: User, store: map<string, Flag>, depth: nat)
    requires EvaluateAtDepth(o, flag, user, store, depth + 1).enabled
    ensures EvaluateAtDepth(o, flag, user, store, depth) == EvaluateAtDepth(o, flag, user, store, depth + 1)
    ensures UnboundedResult(o, flag, user, store) == EvaluateAtDepth(o, flag, user, store, depth + 1)
  {
    var deep, near := Remaining(depth + 1), Remaining(depth);
    DepthIsApproximant(o, flag, user, store, depth + 1);
    DepthIsApproximant(o, flag, user, store, depth);
    ApproximantsGrowFrom(o, user, store, deep, near);
    ApproximantBelowMeaning(o, user, store, deep);
    EnabledGivenMore(o, flag, user, store, Approximant(o, user, store, deep), Approximant(o, user, store, near));
    EnabledGivenMore(o, flag, user, store, Approximant(o, user, store, deep), Meaning(o, user, store));
  }

  lemma EnabledGivenMore(
    o: Oracle, flag: Flag, user: User, store: map<string, Flag>, on: set<string>, more: set<string>)
    requires on <= more && EnabledGiven(o, flag, user, store, on)
    ensures EnabledGiven(o, flag, user, store, more)
  {
    forall i | 0 <= i < |flag.prerequisites| ensures Met(o, flag.prerequisites[i], user, store, more) {
      assert Met(o, flag.prerequisites[i], user, store, on);
    }
  }

  lemma EnabledIsSound(o: Oracle, flag: Flag, user: User, store: map<string, Flag>)
    requires Evaluate(o, flag, user, store)
    ensures UnboundedResult(o, flag, user, store) == EvaluateVariant(o, flag, user, store)
  {
    DepthIsApproximant(o, flag, user, store, 0);
    ApproximantBelowMeaning(o, user, store, Remaining(0));
    EnabledGivenMore(o, flag, user, store, Approximant(o, user, store, Remaining(0)), Meaning(o, user, store));
  }

  /** `path` follows prerequisite edges between stored flags, starting below `flag`. */
  ghost predicate IsChain(store: map<string, Flag>, flag: Flag, path: seq<string>)
    decreases |path|
  {
    |path| > 0 ==>
      path[0] in store
      && (exists i :: 0 <= i < |flag.prerequisites| && flag.prerequisites[i].flagKey == path[0])
      && IsChain(store, store[path[0]], path[1..])
  }

  ghost predicate ChainsWithin(store: map<string, Flag>, flag: Flag, n: nat) {
    forall path :: IsChain(store, flag, path) ==> |path| <= n
  }

  lemma ChainsBelow(store: map<string, Flag>, flag: Flag, i: nat, n: nat)
    requires ChainsWithin(store, flag, n)
    requires i < |flag.prerequisites| && flag.prerequisites[i].flagKey in store
    ensures n > 0 && ChainsWithin(store, store[flag.prerequisites[i].flagKey], n - 1)
  {
    var key := flag.prerequisites[i].flagKey;
    forall path | IsChain(store, store[key], path) ensures |path| <= n - 1 {
      assert ([key] + path)[1..] == path;
      assert IsChain(store, flag, [key] + path);
    }
    assert IsChain(store, store[key], []);
  }

  lemma NextRound(o: Oracle, user: User, store: map<string, Flag>, n: nat, key: string)
    requires key in store && EnabledGiven(o, store[key], user, store, Approximant(o, user, store, n))
    ensures key in Approximant(o, user, store, n + 1)
  {
  }

  /** A set of stored flags that support each other. */
  ghost predicate Supported(o: Oracle, user: User, store: map<string, Flag>, on: set<string>) {
    on <= Round(o, user, store, on)
  }

  lemma {:induction false} ShortChainsNeedFewRounds(
    o: Oracle, flag: Flag, user: User, store: map<string, Flag>, n: nat, on: set<string>)
    requires Supported(o, user, store, on) && ChainsWithin(store, flag, n)
    requires EnabledGiven(o, flag, user, store, on)
    ensures EnabledGiven(o, flag, user, store, Approximant(o, user, store, n))
    decreases n, 1
  {
    forall i | 0 <= i < |flag.prerequisites|
      ensures Met(o, flag.prerequisites[i], user, store, Approximant(o, user, store, n))
    {
      PrerequisiteNeedsFewRounds(o, flag, user, store, n, on, i);
    }
  }

  lemma {:induction false} PrerequisiteNeedsFewRounds(
    o: Oracle, flag: Flag, user: User, store: map<string, Flag>, n: nat, on: set<string>, i: nat)
    requires Supported(o, user, store, on) && ChainsWithin(store, flag, n)
    requires EnabledGiven(o, flag, user, store, on) && i < |flag.prerequisites|
    ensures Met(o, flag.prerequisites[i], user, store, Approximant(o, user, store, n))
    decreases n, 0
  {
    assert Met(o, flag.prerequisites[i], user, store, on);
    ChainsBelow(store, flag, i, n);
    ShortChainsNeedFewRounds(o, store[flag.prerequisites[i].flagKey], user, store, n - 1, on);
    NextRound(o, user, store, n - 1, flag.prerequisites[i].flagKey);
  }

  /** The depth guard is invisible unless some chain has more than ten edges. */
  lemma GuardIsInvisible(o: Oracle, flag: Flag, user: User, store: map<string, Flag>)
    requires ChainsWithin(store, flag, MAX_PREREQUISITE_DEPTH)
    ensures EvaluateVariant(o, flag, user, store) == UnboundedResult(o, flag, user, store)
  {
    DepthIsApproximant(o, flag, user, store, 0);
    ApproximantBelowMeaning(o, user, store, MAX_PREREQUISITE_DEPTH);
    if EnabledGiven(o, flag, user, store, Meaning(o, user, store)) {
      MeaningIsLeastFixpoint(o, user, store);
      ShortChainsNeedFewRounds(o, flag, user, store, MAX_PREREQUISITE_DEPTH, Meaning(o, user, store));
    } else if EnabledGiven(o, flag, user, store, Approximant(o, user, store, MAX_PREREQUISITE_DEPTH)) {
      EnabledIsSound(o, flag, user, store);
    }
  }

  // ---- Failing closed ----

  /** Every flag of the set is stored and is held back by itself, by a missing prerequisite, by a
      prerequisite with another value, or by another flag of the set. */
  ghost predicate HeldBack(o: Oracle, user: User, store: map<string, Flag>, group: set<string>) {
    forall k :: k in group ==> k in store && !EnabledGiven(o, store[k], user, store, store.Keys - group)
  }

  /** Exactly the flags of some held-back group are off in the unbounded meaning. */
  lemma OffIffHeldBack(o: Oracle, user: User, store: map<string, Flag>, key: string)
    requires key in store
    ensures key !in Meaning(o, user, store)
       <==> exists group: set<string> :: key in group && HeldBack(o, user, store, group)
  {
    MeaningIsLeastFixpoint(o, user, store);
    var meaning := Meaning(o, user, store);
    ApproximantsGrow(o, user, store, |store|);
    if key !in meaning {
      var group := store.Keys - meaning;
      assert store.Keys - group == meaning;
      assert HeldBack(o, user, store, group);
    }
    forall group: set<string> | key in group && HeldBack(o, user, store, group) ensures key !in meaning {
      var rest := store.Keys - group;
      assert Round(o, user, store, rest) <= rest;
    }
  }

  /** Every member of the group has a prerequisite that is missing or again in the group. */
  ghost predicate Entangled(store: map<string, Flag>, group: set<string>) {
    forall k :: k in group ==>
      k in store
      && exists i :: 0 <= i < |store[k].prerequisites|
           && (store[k].prerequisites[i].flagKey !in store || store[k].prerequisites[i].flagKey in group)
  }

  /** Cycles, and anything that hangs on them or on a missing flag, fail closed at every depth. */
  lemma EntangledFailsClosed(
    o: Oracle, user: User, store: map<string, Flag>, group: set<string>, key: string, depth: nat)
    requires Entangled(store, group) && key in group
    ensures EvaluateAtDepth(o, store[key], user, store, depth) == DisabledResult(store[key])
  {
    var rest := store.Keys - group;
    assert Round(o, user, store, rest) <= rest by {
      forall k | k in Round(o, user, store, rest) ensures k in rest {
        assert forall i :: 0 <= i < |store[k].prerequisites| ==>
                 Met(o, store[k].prerequisites[i], user, store, rest);
      }
    }
    BelowClosed(o, user, store, Remaining(depth), rest);
    BelowClosed(o, user, store, Remaining(depth) + 1, rest);
    DepthIsApproximant(o, store[key], user, store, depth);
  }

  // ---- Monotonicity ----

  /** `None` and anything from 100 up mean everyone. */
  predicate RolloutWithin(p: Option<u32>, q: Option<u32>) {
    q.None? || q.value >= 100 || (p.Some? && p.value <= q.value)
  }

  /** The same flag, possibly switched on, rolled out to more users or described differently. */
  predicate Raised(f: Flag, g: Flag) {
    && g == f.(isEnabled := g.isEnabled, rollout := g.rollout, rest := g.rest)
    && (f.isEnabled ==> g.isEnabled)
    && RolloutWithin(f.rollout, g.rollout)
  }

  predicate StoreRaised(store: map<string, Flag>, raised: map<string, Flag>) {
    forall k :: k in store ==> k in raised && Raised(store[k], raised[k])
  }

  lemma RaisedDecides(o: Oracle, f: Flag, g: Flag, user: User)
    requires Raised(f, g) && Decide(o, f, user).enabled
    ensures Decide(o, g, user) == Decide(o, f, user)
  {
  }

  /** Raising flags anywhere in the store disables nobody and changes no value that was already on. */
  lemma {:induction false} RaisingNeverDisables(
    o: Oracle, f: Flag, g: Flag, user: User, store: map<string, Flag>, raised: map<string, Flag>, depth: nat)
    requires Raised(f, g) && StoreRaised(store, raised)
    requires EvaluateAtDepth(o, f, user, store, depth).enabled
    ensures EvaluateAtDepth(o, g, user, raised, depth) == EvaluateAtDepth(o, f, user, store, depth)
    decreases Remaining(depth)
  {
    RaisedDecides(o, f, g, user);
    if |f.prerequisites| > 0 {
      forall i | 0 <= i < |f.prerequisites|
        ensures f.prerequisites[i].flagKey in store && f.prerequisites[i].flagKey in raised
        ensures EvaluateAtDepth(o, raised[f.prerequisites[i].flagKey], user, raised, depth + 1)
             == EvaluateAtDepth(o, store[f.prerequisites[i].flagKey], user, store, depth + 1)
      {
        var key := f.prerequisites[i].flagKey;
        RaisingNeverDisables(o, store[key], raised[key], user, store, raised, depth + 1);
      }
      assert PrerequisitesSatisfied(o, g, user, raised, depth);
    }
  }
}
