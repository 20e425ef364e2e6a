/** Segment expansion: a rule that names a segment is replaced by the segment's rules. */
module Segments {
  import opened Options
  import opened Flags

  type SegmentMap = map<string, seq<TargetingRule>>

  predicate References(flag: Flag, segment: string) {
    exists i :: 0 <= i < |flag.rules| && flag.rules[i].segmentKey == Some(segment)
  }

  function Inherit(rule: TargetingRule, variant: Option<FlagValue>): TargetingRule {
    if rule.variant.None? && variant.Some? then rule.(variant := variant) else rule
  }

  /** A rule naming an unknown segment disappears. */
  function ExpandRule(rule: TargetingRule, segments: SegmentMap): seq<TargetingRule> {
    match rule.segmentKey
    case None => [rule]
    case Some(name) =>
      if name in segments
      then seq(|segments[name]|, i requires 0 <= i < |segments[name]| => Inherit(segments[name][i], rule.variant))
      else []
  }

  function ExpandRules(rules: seq<TargetingRule>, segments: SegmentMap): seq<TargetingRule> {
    if |rules| == 0 then [] else ExpandRule(rules[0], segments) + ExpandRules(rules[1..], segments)
  }

  function Expand(flag: Flag, segments: SegmentMap): (r: Flag)
    ensures r.key == flag.key
  {
    if forall i :: 0 <= i < |flag.rules| ==> flag.rules[i].segmentKey.None? then flag
    else flag.(rules := ExpandRules(flag.rules, segments))
  }

  /** Two segment maps that differ at most in one segment. */
  ghost predicate SameElsewhere(segments: SegmentMap, changed: SegmentMap, segment: string) {
    forall k :: k != segment ==>
      (k in segments <==> k in changed) && (k in segments ==> segments[k] == changed[k])
  }

  lemma {:induction false} RulesIgnoreOtherSegments(
    rules: seq<TargetingRule>, segments: SegmentMap, changed: SegmentMap, segment: string)
    requires SameElsewhere(segments, changed, segment)
    requires forall i :: 0 <= i < |rules| ==> rules[i].segmentKey != Some(segment)
    ensures ExpandRules(rules, segments) == ExpandRules(rules, changed)
  {
    if |rules| > 0 {
      assert ExpandRule(rules[0], segments) == ExpandRule(rules[0], changed);
      RulesIgnoreOtherSegments(rules[1..], segments, changed, segment);
    }
  }

  /** Only flags that reference the changed segment need to be published again. */
  lemma ExpansionIgnoresOtherSegments(flag: Flag, segments: SegmentMap, changed: SegmentMap, segment: string)
    requires SameElsewhere(segments, changed, segment) && !References(flag, segment)
    ensures Expand(flag, segments) == Expand(flag, changed)
  {
    RulesIgnoreOtherSegments(flag.rules, segments, changed, segment);
  }
}

/** What expansion means to the evaluator. */
module SegmentSemantics {
  import opened Options
  import opened Flags
  import opened Segments
  import opened Evaluator

  /** Matching a rule looks at its condition, not at the value it would give. */
  ghost predicate IgnoresVariants(o: Oracle) {
    forall rule: TargetingRule, variant, user :: o.matches(rule.(variant := variant), user) == o.matches(rule, user)
  }

  /** First match over rules that may name segments: such a rule matches when a rule of the segment does, and gives
      that rule's variant or else its own; an unknown segment matches nobody. */
  function FirstMatchWithSegments(o: Oracle, rules: seq<TargetingRule>, segments: SegmentMap, user: User)
    : Option<TargetingRule>
  {
    if |rules| == 0 then None
    else
      var rule, rest := rules[0], FirstMatchWithSegments(o, rules[1..], segments, user);
      match rule.segmentKey
      case None => if o.matches(rule, user) then Some(rule) else rest
      case Some(name) =>
        if name !in segments then rest
        else
          match FirstMatch(o, segments[name], user)
          case None => rest
          case Some(inner) => Some(Inherit(inner, rule.variant))
  }

  /** Expansion preserves meaning: evaluating expanded rules is evaluating the rules with their segments. */
  lemma {:induction false} ExpansionKeepsMatches(
    o: Oracle, rules: seq<TargetingRule>, segments: SegmentMap, user: User)
    requires IgnoresVariants(o)
    ensures FirstMatch(o, ExpandRules(rules, segments), user) == FirstMatchWithSegments(o, rules, segments, user)
  {
    if |rules| > 0 {
      var head, tail := ExpandRule(rules[0], segments), ExpandRules(rules[1..], segments);
      ExpansionKeepsMatches(o, rules[1..], segments, user);
      FirstMatchAppend(o, head, tail, user);
      match rules[0].segmentKey {
        case None => assert head == [rules[0]] && head[1..] == [];
        case Some(name) => if name in segments { InheritedMatch(o, segments[name], rules[0].variant, user, head); }
      }
    }
  }

  lemma {:induction false} FirstMatchAppend(o: Oracle, a: seq<TargetingRule>, b: seq<TargetingRule>, user: User)
    ensures FirstMatch(o, a + b, user)
         == if FirstMatch(o, a, user).Some? then FirstMatch(o, a, user) else FirstMatch(o, b, user)
  {
    if |a| == 0 {
      assert a + b == b;
    } else {
      FirstMatchAppend(o, a[1..], b, user);
      assert (a + b)[1..] == a[1..] + b;
    }
  }

  lemma {:induction false} InheritedMatch(
    o: Oracle, rules: seq<TargetingRule>, variant: Option<FlagValue>, user: User, inherited: seq<TargetingRule>)
    requires IgnoresVariants(o) && |inherited| == |rules|
    requires forall i :: 0 <= i < |rules| ==> inherited[i] == Inherit(rules[i], variant)
    ensures FirstMatch(o, inherited, user)
         == match FirstMatch(o, rules, user)
            case None => None
            case Some(rule) => Some(Inherit(rule, variant))
  {
    if |rules| > 0 {
      InheritedMatch(o, rules[1..], variant, user, inherited[1..]);
      assert o.matches(rules[0].(variant := variant), user) == o.matches(rules[0], user);
    }
  }
}
