/**
  The agent's list of conditions, keyed by type.
 */
module Conditions {
  import opened Resources

  datatype ConditionStatus = True | False | Unknown

  datatype Condition = Condition(
    conditionType: string, status: ConditionStatus, observedGeneration: int, lastTransitionTime: int, reason: string,
    message: string)

  // The first condition of a type.
  function Lookup(cs: seq<Condition>, t: string): Option<Condition> {
    if cs == [] then None
    else if cs[0].conditionType == t then Some(cs[0])
    else Lookup(cs[1..], t)
  }

  // Replaces the first condition of the same type, or adds one at the end.
  function With(cs: seq<Condition>, c: Condition): seq<Condition> {
    if cs == [] then [c]
    else if cs[0].conditionType == c.conditionType then [c] + cs[1..]
    else [cs[0]] + With(cs[1..], c)
  }

  function Types(cs: seq<Condition>): seq<string> {
    seq(|cs|, i requires 0 <= i < |cs| => cs[i].conditionType)
  }

  // What is set is found, and nothing else changes.
  lemma {:induction false} LookupAfterWith(cs: seq<Condition>, c: Condition, t: string)
    ensures Lookup(With(cs, c), t) == if t == c.conditionType then Some(c) else Lookup(cs, t)
  {
    if cs == [] {
      assert [c][1..] == [];
    } else if cs[0].conditionType == c.conditionType {
      assert ([c] + cs[1..])[1..] == cs[1..];
    } else {
      LookupAfterWith(cs[1..], c, t);
      assert With(cs, c)[1..] == With(cs[1..], c);
    }
  }

  // The types keep their places; a type is added exactly when it was missing, so no
  // type ever appears twice.
  lemma {:induction false} TypesAfterWith(cs: seq<Condition>, c: Condition)
    ensures Types(With(cs, c)) == Types(cs) + if c.conditionType in Types(cs) then [] else [c.conditionType]
    ensures Distinct(Types(cs)) ==> Distinct(Types(With(cs, c)))
  {
    if cs == [] {
    } else {
      assert Types(cs) == [cs[0].conditionType] + Types(cs[1..]);
      if cs[0].conditionType == c.conditionType {
        assert Types([c] + cs[1..]) == [c.conditionType] + Types(cs[1..]);
      } else {
        TypesAfterWith(cs[1..], c);
        assert Types(With(cs, c)) == [cs[0].conditionType] + Types(With(cs[1..], c));
      }
    }
  }

  predicate IsFirst(cs: seq<Condition>, t: string, i: int) {
    0 <= i < |cs| && cs[i].conditionType == t && forall j | 0 <= j < i :: cs[j].conditionType != t
  }

  class ConditionList {
    var conditions: seq<Condition>

    constructor ()
      ensures conditions == []
    {
      conditions := [];
    }

    method GetCondition(t: string) returns (c: Option<Condition>)
      ensures c == Lookup(conditions, t)
      ensures c.None? ==> forall i | 0 <= i < |conditions| :: conditions[i].conditionType != t
      ensures c.Some? ==> exists i :: 0 <= i < |conditions| && IsFirst(conditions, t, i) && conditions[i] == c.value
    {
      for i := 0 to |conditions|
        invariant forall j | 0 <= j < i :: conditions[j].conditionType != t
        invariant Lookup(conditions, t) == Lookup(conditions[i..], t)
      {
        if conditions[i].conditionType == t {
          assert IsFirst(conditions, t, i);
          return Some(conditions[i]);
        }
      }
      c := None;
    }

    method SetCondition(c: Condition)
      modifies this
      ensures conditions == With(old(conditions), c)
      ensures (exists i :: 0 <= i < |old(conditions)| && IsFirst(old(conditions), c.conditionType, i)
                           && conditions == old(conditions)[i := c])
        || (conditions == old(conditions) + [c]
            && forall i | 0 <= i < |old(conditions)| :: old(conditions)[i].conditionType != c.conditionType)
    {
      for i := 0 to |conditions|
        invariant conditions == old(conditions)
        invariant With(conditions, c) == conditions[..i] + With(conditions[i..], c)
        invariant forall j | 0 <= j < i :: conditions[j].conditionType != c.conditionType
      {
        if conditions[i].conditionType == c.conditionType {
          assert With(conditions[i..], c) == [c] + conditions[i + 1..];
          assert IsFirst(conditions, c.conditionType, i);
          conditions := conditions[i := c];
          return;
        }
        assert With(conditions[i..], c) == [conditions[i]] + With(conditions[i + 1..], c);
        assert conditions[..i + 1] == conditions[..i] + [conditions[i]];
      }
      conditions := conditions + [c];
    }
  }
}
