/**
 * epistemic.py: an autoepistemic agent holds a map from propositions to truth
 * values. New information overwrites entries; revision retracts every belief
 * that the contradiction test flags, all decided against the map as it stood
 * before the first removal.
 */
module Epistemic {
  import opened Wrappers

  type Beliefs = map<string, bool>

  /** The prefix that marks a negated proposition. */
  const Not: string := "not "

  /** `belief.startswith('not ')`. */
  predicate IsNegation(belief: string) {
    |belief| >= |Not| && belief[..|Not|] == Not
  }

  /** `belief[4:]`: everything after the first four characters, empty for shorter strings. */
  function AfterPrefix(belief: string): (r: string)
    ensures |belief| >= 4 ==> belief == belief[..4] + r
    ensures |belief| < 4 ==> r == ""
  {
    if |belief| >= 4 then belief[4..] else ""
  }

  /** The guard of `contradicts_new_information`: `'not ' + belief` is a key, or `belief` is a negation whose positive form is a key. */
  predicate Flagged(beliefs: Beliefs, belief: string) {
    Not + belief in beliefs || (IsNegation(belief) && AfterPrefix(belief) in beliefs)
  }

  /**
   * `contradicts_new_information`. `None` is the `KeyError` that `beliefs[belief]`
   * raises when the condition holds for a proposition that is not itself a key.
   * When the condition holds the value of `belief` is compared with the value
   * stored under `'not ' + belief[4:]`, defaulting to its own negation.
   */
  function Contradicts(beliefs: Beliefs, belief: string): (r: Option<bool>)
    ensures r.None? <==> Flagged(beliefs, belief) && belief !in beliefs
    ensures !Flagged(beliefs, belief) ==> r == Some(false)
  {
    if !Flagged(beliefs, belief) then Some(false)
    else if belief !in beliefs then None
    else
      var probe := Not + AfterPrefix(belief);
      Some(beliefs[belief] != if probe in beliefs then beliefs[probe] else !beliefs[belief])
  }

  /** Stripping the prefix and putting it back gives the negated proposition itself. */
  lemma NegationRoundTrip(belief: string)
    requires IsNegation(belief)
    ensures Not + AfterPrefix(belief) == belief
  {
  }

  /**
   * The belief map `revise_beliefs` leaves: every key the test flags is popped,
   * the rest kept. Revision never adds a key and never changes a kept value.
   */
  function Revised(beliefs: Beliefs): (r: Beliefs)
    ensures r.Keys <= beliefs.Keys
    ensures forall k :: k in r ==> r[k] == beliefs[k]
  {
    map k | k in beliefs && Contradicts(beliefs, k) != Some(true) :: beliefs[k]
  }

  /** The test never raises for a key of the map, so `revise_beliefs` cannot fail. */
  lemma KeysNeverRaise(beliefs: Beliefs, belief: string)
    requires belief in beliefs
    ensures Contradicts(beliefs, belief).Some?
  {
  }

  /** A negated key is never flagged: for it the `'not ' + belief[4:]` probe is the key itself, so its value is compared with itself. */
  lemma NegationsNeverContradict(beliefs: Beliefs, belief: string)
    requires belief in beliefs && IsNegation(belief)
    ensures Contradicts(beliefs, belief) == Some(false)
  {
    NegationRoundTrip(belief);
  }

  /**
   * Exactly when a plain key is retracted: its negation is a key, and the entry
   * under the `'not ' + belief[4:]` probe is either absent or holds the opposite
   * value to the key.
   */
  lemma PlainKeyRetraction(beliefs: Beliefs, belief: string)
    requires belief in beliefs && !IsNegation(belief)
    ensures Contradicts(beliefs, belief) == Some(true) <==>
              Not + belief in beliefs &&
              (Not + AfterPrefix(belief) !in beliefs || beliefs[Not + AfterPrefix(belief)] != beliefs[belief])
  {
  }

  /** Every negated key survives revision. */
  lemma NegationsSurvive(beliefs: Beliefs, belief: string)
    requires belief in beliefs && IsNegation(belief)
    ensures belief in Revised(beliefs)
  {
    NegationsNeverContradict(beliefs, belief);
  }

  /** A key is retracted only if it is a plain key whose negation is also a key. */
  lemma RetractedHaveNegations(beliefs: Beliefs, belief: string)
    requires belief in beliefs && belief !in Revised(beliefs)
    ensures !IsNegation(belief) && Not + belief in beliefs
  {
    if IsNegation(belief) {
      NegationsSurvive(beliefs, belief);
    }
  }

  /** Without any negated key, revision changes nothing. */
  lemma NoNegationsNoChange(beliefs: Beliefs)
    requires forall k :: k in beliefs ==> !IsNegation(k)
    ensures Revised(beliefs) == beliefs
  {
    forall k | k in beliefs ensures Contradicts(beliefs, k) == Some(false) {
      if Not + k in beliefs {
        assert (Not + k)[..|Not|] == Not;
        assert IsNegation(Not + k);
      }
    }
  }

  /**
   * A consistent pair is still retracted: with "rain" true and "not rain" false,
   * the `'not ' + belief[4:]` probe is "not " + "rain"[4:] = "not ", which is no
   * key, so "rain" is flagged.
   */
  lemma ConsistentPairRetracted()
    ensures Revised(map["rain" := true, "not rain" := false]) == map["not rain" := false]
  {
    var beliefs := map["rain" := true, "not rain" := false];
    assert Not + "rain" == "not rain";
    assert "rain" != Not;
    assert "not rain" != Not;
    assert Contradicts(beliefs, "rain") == Some(true);
    NegationsNeverContradict(beliefs, "not rain");
  }

  class AutoepistemicAgent {
    var beliefs: Beliefs

    /** `__init__`: adopt the initial beliefs. */
    constructor(initialBeliefs: Beliefs)
      ensures beliefs == initialBeliefs
    {
      beliefs := initialBeliefs;
    }

    /** `add_information`: entries of the new information overwrite, every other entry is kept. */
    method AddInformation(newInformation: Beliefs)
      modifies this
      ensures beliefs.Keys == old(beliefs).Keys + newInformation.Keys
      ensures forall k :: k in newInformation ==> beliefs[k] == newInformation[k]
      ensures forall k :: k in old(beliefs) && k !in newInformation ==> beliefs[k] == old(beliefs)[k]
      ensures beliefs == old(beliefs) + newInformation
    {
      beliefs := beliefs + newInformation;
    }

    /** `contradicts_new_information`: a query on the current beliefs; it changes nothing. */
    function ContradictsNewInformation(belief: string): (r: Option<bool>)
      reads this
      ensures r == Contradicts(beliefs, belief)
    {
      Contradicts(beliefs, belief)
    }

    /**
     * `revise_beliefs`: first collect every key the test flags, then pop them
     * one by one; each pop finds its key, since the collected keys are distinct
     * keys of the map and only they are removed.
     */
    method ReviseBeliefs()
      modifies this
      ensures beliefs == Revised(old(beliefs))
    {
      var toRemove: seq<string> := [];
      var unseen := beliefs.Keys;
      while unseen != {}
        invariant unseen <= beliefs.Keys
        invariant forall i :: 0 <= i < |toRemove| ==> toRemove[i] in beliefs && toRemove[i] !in unseen
        invariant forall i, j :: 0 <= i < j < |toRemove| ==> toRemove[i] != toRemove[j]
        invariant forall k :: k in beliefs && k !in unseen ==>
                    (k in toRemove <==> Contradicts(beliefs, k) == Some(true))
        decreases unseen
      {
        var belief :| belief in unseen;
        if ContradictsNewInformation(belief) == Some(true) {
          toRemove := toRemove + [belief];
        }
        unseen := unseen - {belief};
      }
      ghost var original := beliefs;
      for i := 0 to |toRemove|
        invariant beliefs.Keys == original.Keys - (set j | 0 <= j < i :: toRemove[j])
        invariant forall k :: k in beliefs ==> beliefs[k] == original[k]
      {
        assert toRemove[i] in beliefs by {
          assert forall j :: 0 <= j < i ==> toRemove[j] != toRemove[i];
        }
        beliefs := beliefs - {toRemove[i]};
      }
      assert (set j | 0 <= j < |toRemove| :: toRemove[j]) == (set k | k in toRemove);
    }
  }

  /** The source's demonstration: new information overwrites "The sky is blue"; nothing is negated, so nothing is retracted. */
  lemma DemoRun()
    ensures Revised(map["The sky is blue" := true, "Grass is green" := true] + map["The sky is blue" := false])
            == map["The sky is blue" := false, "Grass is green" := true]
  {
    var beliefs := map["The sky is blue" := true, "Grass is green" := true] + map["The sky is blue" := false];
    assert beliefs == map["The sky is blue" := false, "Grass is green" := true];
    assert "The sky is blue"[..4] == "The ";
    assert "Grass is green"[..4] == "Gras";
    NoNegationsNoChange(beliefs);
  }
}
