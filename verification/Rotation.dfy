// Taking turns: entries carry the time at which each may next be polled, a poll
// picks an entry with the earliest time and moves it on. While one entry waits,
// no other gets a second turn, so the wait is bounded by the number of entries.
module Rotation {
  import opened Prelude

  // The entries picked, in order.
  function Turns<Id>(picks: seq<Option<Id>>): (ids: seq<Id>)
    ensures |ids| <= |picks|
  {
    if picks == [] then []
    else
      var before := Turns(picks[..|picks| - 1]);
      if picks[|picks| - 1].Some? then before + [picks[|picks| - 1].value] else before
  }

  lemma {:induction false} TurnsArePicks<Id>(picks: seq<Option<Id>>, id: Id)
    ensures id in Turns(picks) <==> exists t :: 0 <= t < |picks| && picks[t] == Some(id)
  {
    if picks != [] {
      var rest := picks[..|picks| - 1];
      TurnsArePicks(rest, id);
      assert forall t :: 0 <= t < |rest| ==> rest[t] == picks[t];
      assert picks[|picks| - 1] == Some(id) ==> id in Turns(picks);
    }
  }

  predicate Distinct<T(==)>(ks: seq<T>) {
    forall a, b :: 0 <= a < b < |ks| ==> ks[a] != ks[b]
  }

  lemma {:induction false} DistinctFits<T>(ks: seq<T>, all: set<T>)
    requires Distinct(ks) && forall a :: 0 <= a < |ks| ==> ks[a] in all
    ensures |ks| <= |all|
  {
    if |ks| > 0 {
      var last := ks[|ks| - 1];
      DistinctFits(ks[..|ks| - 1], all - {last});
    }
  }

  // One step while `r`, due since `due`, waits: it keeps its time, the entry
  // picked was due no later and is due later now, and what was due later stays so.
  predicate Waits<Id(==)>(before: map<Id, int>, pick: Option<Id>, after: map<Id, int>, r: Id, due: int) {
    && (r in after ==> after[r] == due)
    && (pick.Some? ==>
          pick.value in before && before[pick.value] <= due && (pick.value in after ==> after[pick.value] > due))
    && forall id :: id in before && id in after && before[id] > due ==> after[id] > due
  }

  // An entry that leaves does not come back.
  ghost predicate LeavesForGood<Id(!new)>(polls: seq<map<Id, int>>) {
    forall a, b, id :: 0 <= a <= b < |polls| - 1 && id in polls[a] && id !in polls[b] ==> id !in polls[b + 1]
  }

  // The entry waits throughout, step by step as above.
  ghost predicate WaitsThrough<Id(!new)>(polls: seq<map<Id, int>>, picks: seq<Option<Id>>, r: Id, due: int) {
    && |polls| == |picks| + 1 && LeavesForGood(polls)
    && (forall t :: 0 <= t < |picks| ==> r in polls[t])
    && (r in polls[0] ==> polls[0][r] == due)
    && forall t :: 0 <= t < |picks| && polls[t][r] == due && picks[t] != Some(r) ==>
                     Waits(polls[t], picks[t], polls[t + 1], r, due)
  }

  lemma {:induction false} NobodyTwice<Id(!new)>(polls: seq<map<Id, int>>, picks: seq<Option<Id>>, r: Id, due: int)
    requires WaitsThrough(polls, picks, r, due) && r !in Turns(picks)
    ensures Distinct(Turns(picks))
    ensures r in polls[|picks|] ==> polls[|picks|][r] == due
    ensures forall id :: id in Turns(picks) && id in polls[|picks|] ==> polls[|picks|][id] > due
    ensures forall id :: id in Turns(picks) ==> exists a :: 0 <= a < |picks| && id in polls[a]
  {
    if picks != [] {
      var n := |picks| - 1;
      assert polls[..n + 1][n] == polls[n];
      NobodyTwice(polls[..n + 1], picks[..n], r, due);
      TurnsArePicks(picks, r);
      assert Waits(polls[n], picks[n], polls[n + 1], r, due);
      forall id | id in Turns(picks[..n]) && id in polls[n + 1]
        ensures id in polls[n]
      {
        var a :| 0 <= a < n && id in polls[a];
      }
    }
  }

  // An entry that waits throughout has its turn within as many polls as there
  // are entries.
  lemma EveryoneHasATurn<Id(!new)>(polls: seq<map<Id, int>>, picks: seq<Option<Id>>, r: Id, due: int, all: set<Id>)
    requires WaitsThrough(polls, picks, r, due)
    requires r in all && forall t :: 0 <= t < |picks| && picks[t].Some? ==> picks[t].value in all
    requires |Turns(picks)| >= |all|
    ensures r in Turns(picks)
  {
    if r !in Turns(picks) {
      NobodyTwice(polls, picks, r, due);
      var ids := Turns(picks);
      forall a | 0 <= a < |ids|
        ensures ids[a] in all - {r}
      {
        TurnsArePicks(picks, ids[a]);
      }
      DistinctFits(ids, all - {r});
    }
  }
}
