/** The 60-second sliding window shared by both rate limiters. Times are seconds of a monotone clock. */
module SlidingWindow {

  const SPAN := 60.0

  /** Forget the leading times that are more than 60 seconds old. */
  function Prune(recent: seq<real>, now: real): seq<real> {
    if recent != [] && now - recent[0] > SPAN then Prune(recent[1..], now) else recent
  }

  method PruneLoop(recent: seq<real>, now: real) returns (kept: seq<real>)
    ensures kept == Prune(recent, now)
  {
    kept := recent;
    while kept != [] && now - kept[0] > SPAN
      invariant Prune(kept, now) == Prune(recent, now)
    {
      kept := kept[1..];
    }
  }

  predicate Ascending(times: seq<real>) {
    forall i, j :: 0 <= i <= j < |times| ==> times[i] <= times[j]
  }

  /** `recent` is what remains of all grants so far once those over 60 seconds old at `clock` may
      have been dropped. */
  ghost predicate Remembers(recent: seq<real>, history: seq<real>, clock: real) {
    && Ascending(history)
    && (forall i :: 0 <= i < |history| ==> history[i] <= clock)
    && |recent| <= |history|
    && recent == history[|history| - |recent|..]
    && forall i :: 0 <= i < |history| - |recent| ==> clock - history[i] > SPAN
  }

  /** No two grants that are `limit` places apart are within 60 seconds of each other. */
  ghost predicate Spaced(history: seq<real>, limit: int) {
    forall i, j :: 0 <= i <= j < |history| && i + limit <= j ==> history[j] - history[i] > SPAN
  }

  /** Pruning leaves exactly the grants of the last 60 seconds. */
  lemma {:induction false} PruneRemembers(recent: seq<real>, history: seq<real>, clock: real, now: real)
    requires Remembers(recent, history, clock) && clock <= now
    ensures Remembers(Prune(recent, now), history, now)
    ensures forall i :: 0 <= i < |history| ==>
              (now - history[i] <= SPAN <==> |history| - |Prune(recent, now)| <= i)
    decreases |recent|
  {
    var k := |history| - |recent|;
    if recent != [] && now - recent[0] > SPAN {
      assert recent[0] == history[k];
      assert recent[1..] == history[k + 1..];
      PruneRemembers(recent[1..], history, now, now);
    } else if recent != [] {
      assert recent[0] == history[k];
    }
  }

  /** Granting after a prune that left fewer than `limit` entries keeps the spacing. */
  lemma GrantKeepsSpacing(kept: seq<real>, history: seq<real>, now: real, at: real, limit: int)
    requires Remembers(kept, history, now) && now <= at && |kept| < limit && Spaced(history, limit)
    ensures Remembers(kept + [at], history + [at], at) && Spaced(history + [at], limit)
  {
    var longer := history + [at];
    forall i, j | 0 <= i <= j < |longer| && i + limit <= j ensures longer[j] - longer[i] > SPAN {
      if j == |history| {
        assert now - history[i] > SPAN;
      }
    }
  }

  /** The grants inside the closed window that starts at `t`. */
  ghost function InWindow(history: seq<real>, t: real): set<int> {
    set i | 0 <= i < |history| && t <= history[i] <= t + 60.0
  }

  lemma {:induction false} RangeSize(s: set<int>, lo: int, size: nat)
    requires forall i :: i in s ==> lo <= i < lo + size
    ensures |s| <= size
    decreases size
  {
    if size > 0 {
      var last := lo + size - 1;
      RangeSize(s - {last}, lo, size - 1);
      assert s <= (s - {last}) + {last};
      if last in s {
        assert |s| == |s - {last}| + 1;
      } else {
        assert s - {last} == s;
      }
    } else {
      assert s == {};
    }
  }

  /** A set that holds every index of a range is at least as large as the range. */
  lemma {:induction false} RangeFills(s: set<int>, lo: int, hi: int)
    requires lo <= hi && forall i :: lo <= i < hi ==> i in s
    ensures |s| >= hi - lo
    decreases hi - lo
  {
    if lo < hi {
      RangeFills(s - {hi - 1}, lo, hi - 1);
    }
  }

  /** The first index, from `k` on, whose grant lies in the window. */
  lemma {:induction false} FirstInWindow(history: seq<real>, t: real, k: nat) returns (lo: nat)
    requires k <= |history|
    ensures k <= lo <= |history| && (lo < |history| ==> lo in InWindow(history, t))
    ensures forall i :: k <= i < lo ==> i !in InWindow(history, t)
    decreases |history| - k
  {
    if k == |history| || k in InWindow(history, t) {
      lo := k;
    } else {
      lo := FirstInWindow(history, t, k + 1);
    }
  }

  /** Spaced grants: any closed 60-second window contains at most `limit` of them. */
  lemma WindowBound(history: seq<real>, limit: nat, t: real)
    requires Ascending(history) && Spaced(history, limit)
    ensures |InWindow(history, t)| <= limit
  {
    var s := InWindow(history, t);
    var lo := FirstInWindow(history, t, 0);
    if lo < |history| {
      assert forall i :: i in s ==> history[i] - history[lo] <= SPAN;
    }
    RangeSize(s, lo, limit);
  }
}
