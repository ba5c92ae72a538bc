/** The order of a group's conditions: Reconciling, Stalled, then the rest by type. */
module Conditions {
  import opened ApiTypes

  function NewReconcilingCondition(status: ConditionStatus, reason: string, message: string, now: Time): Condition {
    Condition(RECONCILING, status, reason, message, now)
  }

  function NewStalledCondition(status: ConditionStatus, reason: string, message: string, now: Time): Condition {
    Condition(STALLED, status, reason, message, now)
  }

  /** Whether the first condition of the type, if there is one, is true. */
  predicate IsConditionTrue(ctype: ConditionType, conditions: seq<Condition>) {
    conditions != [] &&
    if conditions[0].ctype == ctype then conditions[0].status == TrueStatus
    else IsConditionTrue(ctype, conditions[1..])
  }

  /** The first condition of the type has the status. */
  ghost predicate FirstIs(ctype: string, status: ConditionStatus, conditions: seq<Condition>) {
    exists i ::
      && 0 <= i < |conditions| && conditions[i].ctype == ctype && conditions[i].status == status
      && forall j | 0 <= j < i :: conditions[j].ctype != ctype
  }

  lemma {:induction false} ConditionTrueIff(ctype: ConditionType, conditions: seq<Condition>)
    ensures IsConditionTrue(ctype, conditions) <==> FirstIs(ctype, TrueStatus, conditions)
  {
    if conditions != [] {
      var rest := conditions[1..];
      ConditionTrueIff(ctype, rest);
      if conditions[0].ctype != ctype {
        if i :| 0 <= i < |rest| && rest[i].ctype == ctype && rest[i].status == TrueStatus
                && forall j | 0 <= j < i :: rest[j].ctype != ctype {
          assert conditions[i + 1] == rest[i];
          assert forall j | 0 < j < i + 1 :: conditions[j] == rest[j - 1];
        }
        if i :| 0 <= i < |conditions| && conditions[i].ctype == ctype && conditions[i].status == TrueStatus
                && forall j | 0 <= j < i :: conditions[j].ctype != ctype {
          assert rest[i - 1] == conditions[i];
          assert forall j | 0 <= j < i - 1 :: rest[j] == conditions[j + 1];
        }
      }
    }
  }

  /** Alphabetical order, by code point. */
  predicate TextLess(a: string, b: string) {
    b != [] && (a == [] || a[0] < b[0] || (a[0] == b[0] && TextLess(a[1..], b[1..])))
  }

  /** Where two texts part, the smaller code point comes first; a text comes before its extensions. */
  lemma {:induction false} TextLessIff(a: string, b: string)
    ensures TextLess(a, b) <==>
            exists k :: 0 <= k <= |a| && k < |b| && a[..k] == b[..k] && (k < |a| ==> a[k] < b[k])
  {
    if a == [] {
      assert b != [] ==> a[..0] == b[..0];
    } else if b != [] && a[0] == b[0] {
      TextLessIff(a[1..], b[1..]);
      if k :| 0 <= k <= |a[1..]| && k < |b[1..]| && a[1..][..k] == b[1..][..k]
              && (k < |a[1..]| ==> a[1..][k] < b[1..][k]) {
        assert a[..k + 1] == [a[0]] + a[1..][..k];
        assert b[..k + 1] == [b[0]] + b[1..][..k];
      }
      if k :| 0 <= k <= |a| && k < |b| && a[..k] == b[..k] && (k < |a| ==> a[k] < b[k]) {
        assert k > 0;
        assert a[1..][..k - 1] == a[..k][1..];
        assert b[1..][..k - 1] == b[..k][1..];
      }
    } else if b != [] {
      assert a[..0] == b[..0];
      if k :| 0 <= k <= |a| && k < |b| && a[..k] == b[..k] && (k < |a| ==> a[k] < b[k]) {
        assert k > 0 ==> a[..k][0] == b[..k][0];
      }
    }
  }

  lemma {:induction false} TextLessTotal(a: string, b: string)
    ensures TextLess(a, b) || a == b || TextLess(b, a)
  {
    if a != [] && b != [] && a[0] == b[0] {
      TextLessTotal(a[1..], b[1..]);
      if a[1..] == b[1..] {
        assert a == [a[0]] + a[1..] && b == [b[0]] + b[1..];
      }
    }
  }

  lemma {:induction false} TextLessTransitive(a: string, b: string, c: string)
    requires TextLess(a, b) && TextLess(b, c)
    ensures TextLess(a, c)
  {
    if a != [] && a[0] == b[0] && b[0] == c[0] {
      TextLessTransitive(a[1..], b[1..], c[1..]);
    }
  }

  lemma {:induction false} TextLessIrreflexive(a: string)
    ensures !TextLess(a, a)
  {
    if a != [] {
      TextLessIrreflexive(a[1..]);
    }
  }

  /** a does not come after b. */
  predicate NotAfter(a: Condition, b: Condition) {
    !TextLess(b.ctype, a.ctype)
  }

  lemma NotAfterTransitive(a: Condition, b: Condition, c: Condition)
    requires NotAfter(a, b) && NotAfter(b, c)
    ensures NotAfter(a, c)
  {
    if TextLess(c.ctype, a.ctype) {
      TextLessTotal(a.ctype, b.ctype);
      if TextLess(a.ctype, b.ctype) {
        TextLessTransitive(c.ctype, a.ctype, b.ctype);
      }
    }
  }

  ghost predicate SortedByType(conditions: seq<Condition>) {
    forall i, j | 0 <= i < j < |conditions| :: NotAfter(conditions[i], conditions[j])
  }

  /** Stands for sort.Slice, which promises no more than this contract. */
  method SortByType(conditions: seq<Condition>) returns (sorted: seq<Condition>)
    ensures SortedByType(sorted) && multiset(sorted) == multiset(conditions)
  {
    sorted := [];
    for i := 0 to |conditions|
      invariant SortedByType(sorted) && multiset(sorted) == multiset(conditions[..i])
    {
      sorted := Insert(sorted, conditions[i]);
      assert conditions[..i + 1] == conditions[..i] + [conditions[i]];
    }
    assert conditions[..|conditions|] == conditions;
  }

  lemma LessIsNotAfter(a: Condition, b: Condition)
    requires !NotAfter(b, a)
    ensures NotAfter(a, b)
  {
    if TextLess(b.ctype, a.ctype) {
      TextLessTransitive(a.ctype, b.ctype, a.ctype);
      TextLessIrreflexive(a.ctype);
    }
  }

  lemma InsertSorted(sorted: seq<Condition>, k: nat, c: Condition)
    requires SortedByType(sorted) && k <= |sorted|
    requires k > 0 ==> NotAfter(sorted[k - 1], c)
    requires forall j | k <= j < |sorted| :: NotAfter(c, sorted[j])
    ensures SortedByType(sorted[..k] + [c] + sorted[k..])
  {
    forall j | 0 <= j < k
      ensures NotAfter(sorted[j], c)
    {
      if j < k - 1 {
        NotAfterTransitive(sorted[j], sorted[k - 1], c);
      }
    }
    hide NotAfter;
  }

  method Insert(sorted: seq<Condition>, c: Condition) returns (longer: seq<Condition>)
    requires SortedByType(sorted)
    ensures SortedByType(longer) && multiset(longer) == multiset(sorted) + multiset{c}
  {
    hide NotAfter, TextLess, SortedByType;
    var k := |sorted|;
    while k > 0 && !NotAfter(sorted[k - 1], c)
      invariant 0 <= k <= |sorted|
      invariant forall j | k <= j < |sorted| :: NotAfter(c, sorted[j])
    {
      k := k - 1;
      LessIsNotAfter(c, sorted[k]);
    }
    InsertSorted(sorted, k, c);
    longer := sorted[..k] + [c] + sorted[k..];
    assert sorted == sorted[..k] + sorted[k..];
  }

  /** The last condition of a type, if there is one. */
  function LastOf(ctype: ConditionType, conditions: seq<Condition>): Option<Condition> {
    if conditions == [] then None
    else if conditions[|conditions| - 1].ctype == ctype then Some(conditions[|conditions| - 1])
    else LastOf(ctype, conditions[..|conditions| - 1])
  }

  /** The conditions that are neither Reconciling nor Stalled, in their order. */
  function OthersOf(conditions: seq<Condition>): seq<Condition> {
    if conditions == [] then [] else
    var last := conditions[|conditions| - 1];
    OthersOf(conditions[..|conditions| - 1]) + if last.ctype == RECONCILING || last.ctype == STALLED then [] else [last]
  }

  /** What the printer columns rely on: the last Reconciling condition first and the last
      Stalled one second, an unknown one standing in for a missing one, then the others sorted. */
  ghost predicate Adjusted(conditions: seq<Condition>, now: Time, result: seq<Condition>) {
    && |result| >= 2
    && result[0] == (match LastOf(RECONCILING, conditions)
                     case Some(c) => c
                     case None => NewReconcilingCondition(UnknownStatus, "", "", now))
    && result[1] == (match LastOf(STALLED, conditions)
                     case Some(c) => c
                     case None => NewStalledCondition(UnknownStatus, "", "", now))
    && SortedByType(result[2..])
    && multiset(result[2..]) == multiset(OthersOf(conditions))
  }

  /** The last condition of a type, by position, or the stand-in where there is none. */
  ghost predicate LastOrUnknown(ctype: string, conditions: seq<Condition>, now: Time, c: Condition) {
    && (forall i | 0 <= i < |conditions| && IsLastOf(ctype, conditions, i) :: c == conditions[i])
    && ((forall i | 0 <= i < |conditions| :: conditions[i].ctype != ctype) ==>
          c == Condition(ctype, UnknownStatus, "", "", now))
  }

  predicate IsLastOf(ctype: string, conditions: seq<Condition>, i: nat)
    requires i < |conditions|
  {
    conditions[i].ctype == ctype && forall j | i < j < |conditions| :: conditions[j].ctype != ctype
  }

  const EMPTY_CONDITION := Condition("", NoConditionStatus, "", "", 0)

  method AdjustConditionOrder(conditions: seq<Condition>, now: Time) returns (result: seq<Condition>)
    ensures Adjusted(conditions, now, result)
    ensures |result| >= 2 && SortedByType(result[2..])
    ensures LastOrUnknown("Reconciling", conditions, now, result[0])
    ensures LastOrUnknown("Stalled", conditions, now, result[1])
    ensures forall c ::
              multiset(result[2..])[c] ==
              if c.ctype == "Reconciling" || c.ctype == "Stalled" then 0 else multiset(conditions)[c]
  {
    var reconciling, stalled := EMPTY_CONDITION, EMPTY_CONDITION;
    var others: seq<Condition> := [];
    for i := 0 to |conditions|
      invariant reconciling ==
                (match LastOf(RECONCILING, conditions[..i]) case Some(c) => c case None => EMPTY_CONDITION)
      invariant stalled == (match LastOf(STALLED, conditions[..i]) case Some(c) => c case None => EMPTY_CONDITION)
      invariant others == OthersOf(conditions[..i])
    {
      assert conditions[..i + 1][..i] == conditions[..i];
      if conditions[i].ctype == RECONCILING {
        reconciling := conditions[i];
      } else if conditions[i].ctype == STALLED {
        stalled := conditions[i];
      } else {
        others := others + [conditions[i]];
      }
    }
    assert conditions[..|conditions|] == conditions;
    LastOfHasType(RECONCILING, conditions);
    LastOfHasType(STALLED, conditions);
    var rest := SortByType(others);
    if reconciling.IsEmpty() {
      reconciling := NewReconcilingCondition(UnknownStatus, "", "", now);
    }
    if stalled.IsEmpty() {
      stalled := NewStalledCondition(UnknownStatus, "", "", now);
    }
    result := [reconciling, stalled] + rest;
    assert result[2..] == rest;
    AdjustedAsPromised(conditions, now, result);
  }

  lemma {:induction false} LastOfIs(ctype: ConditionType, conditions: seq<Condition>, i: nat)
    requires i < |conditions| && IsLastOf(ctype, conditions, i)
    ensures LastOf(ctype, conditions) == Some(conditions[i])
  {
    if i < |conditions| - 1 {
      LastOfIs(ctype, conditions[..|conditions| - 1], i);
    }
  }

  lemma {:induction false} LastOfNone(ctype: ConditionType, conditions: seq<Condition>)
    requires forall i | 0 <= i < |conditions| :: conditions[i].ctype != ctype
    ensures LastOf(ctype, conditions) == None
  {
    if conditions != [] {
      LastOfNone(ctype, conditions[..|conditions| - 1]);
    }
  }

  lemma {:induction false} OthersCount(conditions: seq<Condition>, c: Condition)
    ensures multiset(OthersOf(conditions))[c] ==
            if c.ctype == "Reconciling" || c.ctype == "Stalled" then 0 else multiset(conditions)[c]
  {
    if conditions != [] {
      var init, last := conditions[..|conditions| - 1], conditions[|conditions| - 1];
      OthersCount(init, c);
      assert conditions == init + [last];
    }
  }

  lemma AdjustedHead(ctype: ConditionType, conditions: seq<Condition>, now: Time, c: Condition)
    requires c == (match LastOf(ctype, conditions)
                   case Some(d) => d
                   case None => Condition(ctype, UnknownStatus, "", "", now))
    ensures LastOrUnknown(ctype, conditions, now, c)
  {
    forall i | 0 <= i < |conditions| && IsLastOf(ctype, conditions, i)
      ensures c == conditions[i]
    {
      LastOfIs(ctype, conditions, i);
    }
    if forall i | 0 <= i < |conditions| :: conditions[i].ctype != ctype {
      LastOfNone(ctype, conditions);
    }
  }

  lemma AdjustedAsPromised(conditions: seq<Condition>, now: Time, result: seq<Condition>)
    requires Adjusted(conditions, now, result)
    ensures LastOrUnknown("Reconciling", conditions, now, result[0])
    ensures LastOrUnknown("Stalled", conditions, now, result[1])
    ensures forall c ::
              multiset(result[2..])[c] ==
              if c.ctype == "Reconciling" || c.ctype == "Stalled" then 0 else multiset(conditions)[c]
  {
    AdjustedHead(RECONCILING, conditions, now, result[0]);
    AdjustedHead(STALLED, conditions, now, result[1]);
    forall c
      ensures multiset(result[2..])[c] ==
              if c.ctype == "Reconciling" || c.ctype == "Stalled" then 0 else multiset(conditions)[c]
    {
      OthersCount(conditions, c);
    }
  }

  lemma {:induction false} LastOfHasType(ctype: ConditionType, conditions: seq<Condition>)
    ensures LastOf(ctype, conditions).Some? ==> LastOf(ctype, conditions).value.ctype == ctype
  {
    if conditions != [] {
      LastOfHasType(ctype, conditions[..|conditions| - 1]);
    }
  }

  /** In an adjusted list the two scans of the predicate read positions 0 and 1. */
  lemma AdjustedReads(conditions: seq<Condition>, now: Time, result: seq<Condition>)
    requires Adjusted(conditions, now, result)
    ensures result[0].ctype == RECONCILING && result[1].ctype == STALLED
    ensures IsConditionTrue(RECONCILING, result) <==> result[0].status == TrueStatus
    ensures IsConditionTrue(STALLED, result) <==> result[1].status == TrueStatus
  {
    LastOfHasType(RECONCILING, conditions);
    LastOfHasType(STALLED, conditions);
    assert |RECONCILING| != |STALLED|;
    assert result[1..][0] == result[1];
  }

  /** Adjusting the two conditions the controller writes leaves them as they are. */
  lemma AdjustedPair(c: Condition, d: Condition, now: Time, result: seq<Condition>)
    requires c.ctype == RECONCILING && d.ctype == STALLED
    requires Adjusted([c, d], now, result)
    ensures result == [c, d]
  {
    assert |RECONCILING| != |STALLED|;
    var cd := [c, d];
    assert cd[..1] == [c];
    assert [c][..0] == [];
    assert OthersOf([c]) == [];
    assert OthersOf(cd) == [];
    assert LastOf(RECONCILING, [c]) == Some(c);
    assert |result[2..]| == |multiset(result[2..])|;
  }

  lemma PairAndRest(conditions: seq<Condition>)
    requires |conditions| >= 2
    ensures conditions[..2] == [conditions[0], conditions[1]]
    ensures multiset(conditions) == multiset(conditions[..2]) + multiset(conditions[2..])
  {
    assert conditions == conditions[..2] + conditions[2..];
  }

  lemma AdjustedParts(conditions: seq<Condition>, now: Time, result: seq<Condition>)
    requires Adjusted(conditions, now, result)
    ensures |result| >= 2 && multiset(result[2..]) == multiset(OthersOf(conditions))
    ensures LastOf(RECONCILING, conditions).Some? ==> Some(result[0]) == LastOf(RECONCILING, conditions)
    ensures LastOf(STALLED, conditions).Some? ==> Some(result[1]) == LastOf(STALLED, conditions)
  {
  }

  /** Adjusting again moves nothing but, possibly, others of equal type. */
  lemma AdjustedTwice(conditions: seq<Condition>, now: Time, once: seq<Condition>,
                      later: Time, twice: seq<Condition>)
    requires Adjusted(conditions, now, once) && Adjusted(once, later, twice)
    ensures twice[..2] == once[..2]
    ensures multiset(twice) == multiset(once)
  {
    hide Adjusted, LastOf, OthersOf, SortedByType, IsConditionTrue;
    AdjustedParts(conditions, now, once);
    AdjustedParts(once, later, twice);
    AdjustedReads(conditions, now, once);
    RestAreOthers(conditions, now, once);
    PairThenOthers(once);
    PairAndRest(once);
    PairAndRest(twice);
  }

  lemma RestAreOthers(conditions: seq<Condition>, now: Time, once: seq<Condition>)
    requires Adjusted(conditions, now, once)
    ensures forall c | c in once[2..] :: c.ctype != RECONCILING && c.ctype != STALLED
  {
    OthersAreOthers(conditions);
    forall c | c in once[2..]
      ensures c in OthersOf(conditions)
    {
      assert c in multiset(once[2..]);
    }
  }

  lemma {:induction false} OthersAreOthers(conditions: seq<Condition>)
    ensures forall c | c in OthersOf(conditions) :: c.ctype != RECONCILING && c.ctype != STALLED
  {
    if conditions != [] {
      OthersAreOthers(conditions[..|conditions| - 1]);
    }
  }

  lemma {:induction false} PairThenOthers(conditions: seq<Condition>)
    requires |conditions| >= 2 && conditions[0].ctype == RECONCILING && conditions[1].ctype == STALLED
    requires forall c | c in conditions[2..] :: c.ctype != RECONCILING && c.ctype != STALLED
    ensures LastOf(RECONCILING, conditions) == Some(conditions[0])
    ensures LastOf(STALLED, conditions) == Some(conditions[1])
    ensures OthersOf(conditions) == conditions[2..]
    decreases |conditions|
  {
    assert |RECONCILING| != |STALLED|;
    var init, last := conditions[..|conditions| - 1], conditions[|conditions| - 1];
    if |conditions| == 2 {
      assert init == [conditions[0]];
      assert init[..0] == [];
      assert OthersOf(init) == [];
    } else {
      assert last in conditions[2..];
      assert conditions[2..] == init[2..] + [last];
      PairThenOthers(init);
    }
  }
}
