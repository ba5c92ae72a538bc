/** What a watch loop has learnt from the events it has handled: where to restart, how
    many errors in a row, and how long it has slept. */
module WatchProgress {
  import opened ApiTypes

  /** An event as the loop sees it: handled with a resource version, possibly empty, or failed. */
  datatype Heard = Good(version: string) | Bad(expired: bool)

  /** 2^18 ms is the longest pause. */
  const MAX_WATCH_RETRY_FACTOR: nat := 18

  function Pow2(n: nat): (p: nat)
    ensures p > 0
  {
    if n == 0 then 1 else 2 * Pow2(n - 1)
  }

  /** The pause, in milliseconds, before retry number `retries`. */
  function Delay(retries: nat): nat {
    Pow2(if retries > MAX_WATCH_RETRY_FACTOR then MAX_WATCH_RETRY_FACTOR else retries)
  }

  function RestartVersion(heard: seq<Heard>): string {
    if heard == [] then "" else
    var before := RestartVersion(heard[..|heard| - 1]);
    match heard[|heard| - 1]
    case Good(version) => if version != "" then version else before
    case Bad(expired) => if expired then "" else before
  }

  function Retries(heard: seq<Heard>): nat {
    if heard == [] || heard[|heard| - 1].Good? then 0 else Retries(heard[..|heard| - 1]) + 1
  }

  /** The pauses, in order. */
  function Waits(heard: seq<Heard>): seq<nat> {
    if heard == [] then [] else
    Waits(heard[..|heard| - 1]) + if heard[|heard| - 1].Bad? then [Delay(Retries(heard))] else []
  }

  lemma OneMore(heard: seq<Heard>, next: Heard)
    ensures RestartVersion(heard + [next]) ==
            match next
            case Good(version) => if version != "" then version else RestartVersion(heard)
            case Bad(expired) => if expired then "" else RestartVersion(heard)
    ensures Retries(heard + [next]) == if next.Good? then 0 else Retries(heard) + 1
    ensures Waits(heard + [next]) == Waits(heard) + if next.Bad? then [Delay(Retries(heard) + 1)] else []
  {
    hide Delay, Pow2;
    assert (heard + [next])[..|heard|] == heard;
  }

  function Sum(xs: seq<nat>): nat {
    if xs == [] then 0 else Sum(xs[..|xs| - 1]) + xs[|xs| - 1]
  }

  /** Position i decides the restart version: it carries a version or is an expiry, and nothing after it does. */
  predicate Decides(heard: seq<Heard>, i: nat)
    requires i < |heard|
  {
    heard[i] == Bad(true) || (heard[i].Good? && heard[i].version != "")
  }

  /** The loop restarts at the last non-empty version handled since the last expiry, if any. */
  lemma {:induction false} RestartIsLatestSinceExpiry(heard: seq<Heard>) returns (i: nat)
    ensures i <= |heard| && (forall j | i < j < |heard| :: !Decides(heard, j))
    ensures i < |heard| ==>
              Decides(heard, i) && RestartVersion(heard) == if heard[i].Good? then heard[i].version else ""
    ensures i == |heard| ==> RestartVersion(heard) == "" && forall j | 0 <= j < |heard| :: !Decides(heard, j)
  {
    i := 0;
    if heard != [] {
      var n := |heard| - 1;
      var init := heard[..n];
      assert forall j | 0 <= j < n :: init[j] == heard[j];
      if Decides(heard, n) {
        i := n;
      } else {
        i := RestartIsLatestSinceExpiry(init);
        if i < n {
          assert Decides(init, i);
        } else {
          i := n + 1;
        }
        forall j | 0 <= j < n
          ensures Decides(heard, j) == Decides(init, j)
        {
        }
      }
    }
  }

  /** The retry counter counts exactly the errors since the last good event. */
  lemma {:induction false} RetriesCountErrors(heard: seq<Heard>)
    ensures var n := Retries(heard);
            && n <= |heard|
            && (forall i | |heard| - n <= i < |heard| :: heard[i].Bad?)
            && (n < |heard| ==> heard[|heard| - n - 1].Good?)
  {
    if heard != [] && heard[|heard| - 1].Bad? {
      RetriesCountErrors(heard[..|heard| - 1]);
    }
  }

  ghost predicate Streak(heard: seq<Heard>, n: nat) {
    && n <= |heard|
    && (forall i | |heard| - n <= i < |heard| :: heard[i].Bad?)
    && (n < |heard| ==> heard[|heard| - n - 1].Good?)
  }

  lemma {:induction false} StreakIsRetries(heard: seq<Heard>, n: nat)
    requires Streak(heard, n)
    ensures Retries(heard) == n
    decreases |heard|
  {
    if n > 0 {
      StreakIsRetries(heard[..|heard| - 1], n - 1);
    }
  }

  function Pauses(n: nat): nat {
    if n <= 18 then Pow2(n + 1) - 2 else 524286 + 262144 * (n - 18)
  }

  lemma PowersOfTwo()
    ensures Pow2(18) == 262144 && Pow2(19) == 524288
  {
    assert Pow2(6) == 64;
    assert Pow2(12) == 4096;
    assert Pow2(18) == 262144;
  }

  lemma PauseAddsUp(n: nat)
    requires n > 0
    ensures Pauses(n) == Pauses(n - 1) + Delay(n)
  {
    PowersOfTwo();
  }

  /** n errors in a row cost 2^(n+1) - 2 ms of sleep up to n = 18, and 262144 ms for each one beyond. */
  lemma {:induction false} StreakCost(heard: seq<Heard>, n: nat)
    requires Streak(heard, n)
    ensures Sum(Waits(heard)) == Sum(Waits(heard[..|heard| - n])) + Pauses(n)
    decreases n
  {
    if n == 0 {
      assert heard[..|heard|] == heard;
    } else {
      var init := heard[..|heard| - 1];
      StreakIsRetries(heard, n);
      StreakCost(init, n - 1);
      assert init[..|init| - (n - 1)] == heard[..|heard| - n];
      PauseAddsUp(n);
      assert Waits(heard) == Waits(init) + [Delay(n)];
      assert Waits(heard)[..|Waits(init)|] == Waits(init);
    }
  }
}
