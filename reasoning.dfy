/**
 * reasoning.py: Socratic reasoning over an ordered list of premises that can be
 * added, challenged (removed) and summed up in a fixed conclusion text.
 */
module Reasoning {
  import opened Wrappers

  const Opening: string := "Based on the premises: "
  const Bullet: string := "\n- "
  const Closing: string := "\nWe may conclude that further discussion and reasoning are needed."

  /** `list.remove`: drop the first occurrence, or nothing when the value is absent. */
  function RemoveFirst(premises: seq<string>, premise: string): (r: seq<string>)
    ensures |r| == if premise in premises then |premises| - 1 else |premises|
    ensures forall p :: p in r ==> p in premises
  {
    if premises == [] then []
    else if premises[0] == premise then premises[1..]
    else [premises[0]] + RemoveFirst(premises[1..], premise)
  }

  /** The index of the first occurrence of a present value. */
  function FirstIndex(premises: seq<string>, premise: string): (i: nat)
    requires premise in premises
    ensures i < |premises| && premises[i] == premise && premise !in premises[..i]
  {
    if premises[0] == premise then 0
    else
      var i := FirstIndex(premises[1..], premise);
      assert premises[..i + 1] == [premises[0]] + premises[1..][..i];
      i + 1
  }

  /** Removing a present value splices out exactly its first occurrence. */
  lemma {:induction false} RemoveFirstSplices(premises: seq<string>, premise: string)
    requires premise in premises
    ensures var i := FirstIndex(premises, premise);
            RemoveFirst(premises, premise) == premises[..i] + premises[i + 1..]
  {
    if premises[0] != premise {
      var tail := premises[1..];
      RemoveFirstSplices(tail, premise);
      var i := FirstIndex(tail, premise);
      assert FirstIndex(premises, premise) == i + 1;
      assert RemoveFirst(premises, premise) == [premises[0]] + (tail[..i] + tail[i + 1..]);
      assert premises[..i + 1] == [premises[0]] + tail[..i];
      assert premises[i + 2..] == tail[i + 1..];
      assert premises[..i + 1] + premises[i + 2..] == [premises[0]] + (tail[..i] + tail[i + 1..]);
    }
  }

  /** Removing an absent value leaves the list as it was. */
  lemma {:induction false} RemoveFirstAbsent(premises: seq<string>, premise: string)
    requires premise !in premises
    ensures RemoveFirst(premises, premise) == premises
  {
    if premises != [] {
      RemoveFirstAbsent(premises[1..], premise);
    }
  }

  /** Removing a present value takes away one copy of it and nothing else. */
  lemma RemoveFirstOneCopy(premises: seq<string>, premise: string)
    requires premise in premises
    ensures |RemoveFirst(premises, premise)| == |premises| - 1
    ensures multiset(RemoveFirst(premises, premise)) == multiset(premises) - multiset{premise}
  {
    var i := FirstIndex(premises, premise);
    RemoveFirstSplices(premises, premise);
    var front, back := premises[..i], premises[i + 1..];
    assert premises == front + [premise] + back;
    calc {
      multiset(premises);
      multiset(front) + multiset{premise} + multiset(back);
      multiset(front + back) + multiset{premise};
    }
  }

  /** The bullet list of the conclusion: "\n- p" for each premise, in list order. */
  function Bullets(premises: seq<string>): string {
    if premises == [] then ""
    else Bullets(premises[..|premises| - 1]) + Bullet + premises[|premises| - 1]
  }

  /** The text `draw_conclusion` logs for a non-empty premise list: the fixed heading, the bullets, the fixed closing sentence. */
  function ConclusionText(premises: seq<string>): (text: string)
    ensures |text| >= |Opening| + |Closing|
    ensures text[..|Opening|] == Opening && text[|text| - |Closing|..] == Closing
  {
    Opening + Bullets(premises) + Closing
  }

  /** The bullet list of two lists joined is the two bullet lists joined. */
  lemma {:induction false} BulletsAppend(front: seq<string>, back: seq<string>)
    ensures Bullets(front + back) == Bullets(front) + Bullets(back)
  {
    if back != [] {
      var all := front + back;
      assert all[..|all| - 1] == front + back[..|back| - 1];
      BulletsAppend(front, back[..|back| - 1]);
    } else {
      assert front + back == front;
    }
  }

  /** Each premise's bullet takes 3 + |p| characters. */
  function BulletsLength(premises: seq<string>): nat {
    if premises == [] then 0
    else BulletsLength(premises[..|premises| - 1]) + |Bullet| + |premises[|premises| - 1]|
  }

  lemma {:induction false} BulletsLengthIs(premises: seq<string>)
    ensures |Bullets(premises)| == BulletsLength(premises)
  {
    if premises != [] {
      BulletsLengthIs(premises[..|premises| - 1]);
    }
  }

  /**
   * Premise i appears, after its "\n- " marker, right where the bullets of the
   * premises before it end: the text lists every premise in order.
   */
  lemma PremiseAtOffset(premises: seq<string>, i: nat)
    requires i < |premises|
    ensures var at := |Opening| + BulletsLength(premises[..i]);
            var text := ConclusionText(premises);
            at + |Bullet| + |premises[i]| <= |text| &&
            text[at..at + |Bullet| + |premises[i]|] == Bullet + premises[i]
  {
    var front, back := premises[..i + 1], premises[i + 1..];
    assert premises == front + back;
    BulletsAppend(front, back);
    assert front[..|front| - 1] == premises[..i];
    BulletsLengthIs(premises[..i]);
    assert front[|front| - 1] == premises[i];
    assert Bullets(front) == Bullets(premises[..i]) + Bullet + premises[i];
    Regroup(Opening, Bullets(premises[..i]), Bullet, premises[i], Bullets(back), Closing);
    var before, entry, after := Opening + Bullets(premises[..i]), Bullet + premises[i], Bullets(back) + Closing;
    Middle(before, entry, after);
  }

  /** Regrouping the parts of the conclusion text around one bullet. */
  lemma Regroup(opening: string, earlier: string, bullet: string, premise: string, later: string, closing: string)
    ensures opening + (earlier + bullet + premise + later) + closing
            == (opening + earlier) + (bullet + premise) + (later + closing)
  {
  }

  /** The middle part of a three-part text sits right after the first part. */
  lemma Middle(before: string, entry: string, after: string)
    ensures (before + entry + after)[|before|..|before| + |entry|] == entry
  {
  }

  class SocraticReasoning {
    var premises: seq<string>

    /** `__init__`: no premises yet. */
    constructor()
      ensures premises == []
    {
      premises := [];
    }

    /** `add_premise`: append at the end; duplicates are kept. */
    method AddPremise(premise: string)
      modifies this
      ensures premises == old(premises) + [premise]
    {
      premises := premises + [premise];
    }

    /**
     * `challenge_premise`: remove the first occurrence when the premise is
     * present; `removed` tells which of the two messages is logged.
     */
    method ChallengePremise(premise: string) returns (removed: bool)
      modifies this
      ensures removed <==> premise in old(premises)
      ensures premises == RemoveFirst(old(premises), premise)
      ensures !removed ==> premises == old(premises)
    {
      removed := premise in premises;
      if removed {
        premises := RemoveFirst(premises, premise);
      } else {
        RemoveFirstAbsent(premises, premise);
      }
    }

    /**
     * `draw_conclusion`: nothing for an empty list (the source logs an error
     * instead), otherwise the conclusion text built bullet by bullet. The list
     * is only read.
     */
    method DrawConclusion() returns (conclusion: Option<string>)
      ensures conclusion.None? <==> premises == []
      ensures conclusion.Some? ==> conclusion.value == ConclusionText(premises)
    {
      if premises == [] {
        return None;
      }
      var text := Opening;
      for i := 0 to |premises|
        invariant text == Opening + Bullets(premises[..i])
      {
        assert premises[..i + 1][..i] == premises[..i];
        text := text + Bullet + premises[i];
      }
      assert premises[..|premises|] == premises;
      text := text + Closing;
      return Some(text);
    }
  }
}
