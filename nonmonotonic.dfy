/**
 * nonmonotonic.py: default logic by saturation. A rule fires when all its
 * conditions are believed, a default when none of them is; `evaluate` starts
 * from no beliefs and adds the conclusions of everything that fires until a
 * round adds nothing new. The loop terminates because beliefs only ever come
 * from the finitely many conclusions on record and each round adds one.
 */
module Nonmonotonic {

  /** `Rule`: conclusions that follow once every condition is believed. */
  datatype Rule = Rule(conditions: set<string>, conclusions: set<string>) {
    /** `Rule.applies`: the conditions are a subset of the beliefs, that is, every condition is believed. */
    predicate Applies(beliefs: set<string>)
      ensures Applies(beliefs) <==> forall c :: c in conditions ==> c in beliefs
    {
      conditions <= beliefs
    }
  }

  /** `Default`: conclusions that hold as long as no condition is believed. */
  datatype Default = Default(conditions: set<string>, conclusions: set<string>) {
    /** `Default.applies`: the conditions and the beliefs are disjoint, that is, no condition is believed. */
    predicate Applies(beliefs: set<string>)
      ensures Applies(beliefs) <==> forall c :: c in conditions ==> c !in beliefs
    {
      conditions !! beliefs
    }
  }

  /** Every conclusion of every rule. */
  function AllRuleConclusions(rules: seq<Rule>): set<string> {
    if rules == [] then {} else AllRuleConclusions(rules[..|rules| - 1]) + rules[|rules| - 1].conclusions
  }

  /** Every conclusion of every default. */
  function AllDefaultConclusions(defaults: seq<Default>): set<string> {
    if defaults == [] then {} else AllDefaultConclusions(defaults[..|defaults| - 1]) + defaults[|defaults| - 1].conclusions
  }

  /** Everything `evaluate` could ever come to believe. */
  function AllConclusions(rules: seq<Rule>, defaults: seq<Default>): set<string> {
    AllRuleConclusions(rules) + AllDefaultConclusions(defaults)
  }

  /** What the rules loop of one round adds to `new_beliefs`: the conclusions of the rules that apply. */
  function RuleConclusions(rules: seq<Rule>, beliefs: set<string>): (r: set<string>)
    ensures r <= AllRuleConclusions(rules)
  {
    if rules == [] then {}
    else
      var last := rules[|rules| - 1];
      RuleConclusions(rules[..|rules| - 1], beliefs) + if last.Applies(beliefs) then last.conclusions else {}
  }

  /** What the defaults loop of one round adds to `new_beliefs`: the conclusions of the defaults that apply. */
  function DefaultConclusions(defaults: seq<Default>, beliefs: set<string>): (r: set<string>)
    ensures r <= AllDefaultConclusions(defaults)
  {
    if defaults == [] then {}
    else
      var last := defaults[|defaults| - 1];
      DefaultConclusions(defaults[..|defaults| - 1], beliefs) + if last.Applies(beliefs) then last.conclusions else {}
  }

  /** `new_beliefs` at the end of one round. */
  function Step(rules: seq<Rule>, defaults: seq<Default>, beliefs: set<string>): (r: set<string>)
    ensures r <= AllConclusions(rules, defaults)
  {
    RuleConclusions(rules, beliefs) + DefaultConclusions(defaults, beliefs)
  }

  /** A round that adds a conclusion not yet believed narrows the gap to everything that could be believed. */
  lemma GapShrinks(all: set<string>, beliefs: set<string>, added: set<string>)
    requires beliefs <= all && added <= all && !(added <= beliefs)
    ensures |all - (beliefs + added)| < |all - beliefs|
  {
    var x :| x in added && x !in beliefs;
    var gap, narrowed := all - beliefs, all - (beliefs + added);
    assert narrowed <= gap - {x};
    assert gap - {x} == narrowed + ((gap - {x}) - narrowed);
    assert |gap - {x}| == |gap| - 1;
  }

  /**
   * The beliefs the loop of `evaluate` ends with when it starts from `beliefs`:
   * a fixpoint that contains the start and grows only by conclusions on record.
   */
  function Closure(rules: seq<Rule>, defaults: seq<Default>, beliefs: set<string>): (r: set<string>)
    requires beliefs <= AllConclusions(rules, defaults)
    ensures beliefs <= r <= AllConclusions(rules, defaults)
    ensures Step(rules, defaults, beliefs) <= r
    ensures Step(rules, defaults, r) <= r
    decreases |AllConclusions(rules, defaults) - beliefs|
  {
    var added := Step(rules, defaults, beliefs);
    if added <= beliefs then beliefs
    else
      GapShrinks(AllConclusions(rules, defaults), beliefs, added);
      Closure(rules, defaults, beliefs + added)
  }

  /** The conclusions of every rule that applies are part of a round's new beliefs. */
  lemma {:induction false} RuleConclusionsCover(rules: seq<Rule>, beliefs: set<string>, i: nat)
    requires i < |rules| && rules[i].Applies(beliefs)
    ensures rules[i].conclusions <= RuleConclusions(rules, beliefs)
  {
    if i < |rules| - 1 {
      RuleConclusionsCover(rules[..|rules| - 1], beliefs, i);
    }
  }

  /** The conclusions of every default that applies are part of a round's new beliefs. */
  lemma {:induction false} DefaultConclusionsCover(defaults: seq<Default>, beliefs: set<string>, i: nat)
    requires i < |defaults| && defaults[i].Applies(beliefs)
    ensures defaults[i].conclusions <= DefaultConclusions(defaults, beliefs)
  {
    if i < |defaults| - 1 {
      DefaultConclusionsCover(defaults[..|defaults| - 1], beliefs, i);
    }
  }

  /** On exit no rule or default that applies to the final beliefs has a conclusion left to add. */
  lemma ClosureIsFixpoint(rules: seq<Rule>, defaults: seq<Default>)
    ensures var r := Closure(rules, defaults, {});
            && (forall i :: 0 <= i < |rules| && rules[i].Applies(r) ==> rules[i].conclusions <= r)
            && (forall i :: 0 <= i < |defaults| && defaults[i].Applies(r) ==> defaults[i].conclusions <= r)
  {
    var r := Closure(rules, defaults, {});
    forall i | 0 <= i < |rules| && rules[i].Applies(r) ensures rules[i].conclusions <= r {
      RuleConclusionsCover(rules, r, i);
    }
    forall i | 0 <= i < |defaults| && defaults[i].Applies(r) ensures defaults[i].conclusions <= r {
      DefaultConclusionsCover(defaults, r, i);
    }
  }

  /** Every default applies to the empty start, so each default's conclusions end up believed. */
  lemma DefaultsAlwaysConcluded(rules: seq<Rule>, defaults: seq<Default>, i: nat)
    requires i < |defaults|
    ensures defaults[i].conclusions <= Closure(rules, defaults, {})
  {
    DefaultConclusionsCover(defaults, {}, i);
  }

  /** With no rules and no defaults nothing is ever concluded. */
  lemma NothingFromNothing(query: string)
    ensures query !in Closure([], [], {})
  {
  }

  /** The source's example: rule {A, B} -> {C} and default {D} -> {E} end with beliefs {E}, so "C" is not concluded. */
  lemma ExampleRun()
    ensures Closure([Rule({"A", "B"}, {"C"})], [Default({"D"}, {"E"})], {}) == {"E"}
  {
    var rules, defaults := [Rule({"A", "B"}, {"C"})], [Default({"D"}, {"E"})];
    assert rules[..0] == [] && defaults[..0] == [];
    assert Step(rules, defaults, {}) == {"E"};
    assert "A" != "E";
    assert Step(rules, defaults, {"E"}) == {"E"};
  }

  class DefaultLogic {
    var rules: seq<Rule>
    var defaults: seq<Default>

    constructor()
      ensures rules == [] && defaults == []
    {
      rules := [];
      defaults := [];
    }

    /** `add_rule`: append, keeping every earlier rule. */
    method AddRule(rule: Rule)
      modifies this`rules
      ensures rules == old(rules) + [rule]
    {
      rules := rules + [rule];
    }

    /** `add_default`: append, keeping every earlier default. */
    method AddDefault(default: Default)
      modifies this`defaults
      ensures defaults == old(defaults) + [default]
    {
      defaults := defaults + [default];
    }

    /**
     * `evaluate`: saturate from the empty belief set and report whether the
     * query is believed. The rule and default lists are only read.
     */
    method Evaluate(query: string) returns (r: bool)
      ensures r == (query in Closure(rules, defaults, {}))
    {
      var beliefs: set<string> := {};
      var newBeliefs: set<string> := {};
      while true
        invariant beliefs <= AllConclusions(rules, defaults)
        invariant Closure(rules, defaults, beliefs) == Closure(rules, defaults, {})
        decreases |AllConclusions(rules, defaults) - beliefs|
      {
        newBeliefs := Round(beliefs);
        if newBeliefs <= beliefs {
          break;
        }
        GapShrinks(AllConclusions(rules, defaults), beliefs, newBeliefs);
        beliefs := beliefs + newBeliefs;
      }
      r := query in beliefs;
    }

    /** One pass of `evaluate`'s loop: the conclusions of every rule, then every default, that applies. */
    method Round(beliefs: set<string>) returns (newBeliefs: set<string>)
      ensures newBeliefs == Step(rules, defaults, beliefs)
    {
      newBeliefs := {};
      for i := 0 to |rules|
        invariant newBeliefs == RuleConclusions(rules[..i], beliefs)
      {
        assert rules[..i + 1][..i] == rules[..i];
        if rules[i].Applies(beliefs) {
          newBeliefs := newBeliefs + rules[i].conclusions;
        }
      }
      assert rules[..|rules|] == rules;
      for i := 0 to |defaults|
        invariant newBeliefs == RuleConclusions(rules, beliefs) + DefaultConclusions(defaults[..i], beliefs)
      {
        assert defaults[..i + 1][..i] == defaults[..i];
        if defaults[i].Applies(beliefs) {
          newBeliefs := newBeliefs + defaults[i].conclusions;
        }
      }
      assert defaults[..|defaults|] == defaults;
    }
  }
}
