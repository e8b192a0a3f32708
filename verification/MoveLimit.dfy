/** The limit on how often a role may move: a greedy choice, over whole runs of requests. */
module MoveLimit {
  import opened GoTypes

  /** Whether a move of role at time now comes at least the interval after the last one let through. */
  predicate Permits(lastMove: map<int64, int>, interval: int, role: int64, now: int) {
    role !in lastMove || now - lastMove[role] >= interval
  }

  class MoveLimiter {
    const interval: int
    var lastMove: map<int64, int>

    constructor (interval: int)
      ensures this.interval == interval && lastMove == map[]
    {
      this.interval, lastMove := interval, map[];
    }

    method Allow(roleID: int64, now: int) returns (ok: bool)
      modifies this
      ensures ok <==> Permits(old(lastMove), interval, roleID, now)
      ensures lastMove == if ok then old(lastMove)[roleID := now] else old(lastMove)
    {
      if roleID !in lastMove || now - lastMove[roleID] >= interval {
        lastMove := lastMove[roleID := now];
        return true;
      }
      return false;
    }

    method Remove(roleID: int64)
      modifies this
      ensures lastMove == old(lastMove) - {roleID}
    {
      lastMove := lastMove - {roleID};
    }
  }

  // ---------------------------------------------------------------------
  // Runs of requests
  // ---------------------------------------------------------------------

  datatype Request = Request(role: int64, time: int)

  ghost function AfterRequest(lastMove: map<int64, int>, interval: int, q: Request): map<int64, int> {
    if Permits(lastMove, interval, q.role, q.time) then lastMove[q.role := q.time] else lastMove
  }

  /** The decisions on a run of requests of many roles. */
  ghost function Decisions(lastMove: map<int64, int>, interval: int, qs: seq<Request>): (ok: seq<bool>)
    ensures |ok| == |qs|
    decreases qs
  {
    if qs == [] then []
    else [Permits(lastMove, interval, qs[0].role, qs[0].time)]
         + Decisions(AfterRequest(lastMove, interval, qs[0]), interval, qs[1..])
  }

  /** What a limiter answers to a run of requests. */
  method AllowAll(limiter: MoveLimiter, qs: seq<Request>) returns (ok: seq<bool>)
    modifies limiter
    ensures ok == Decisions(old(limiter.lastMove), limiter.interval, qs)
  {
    ok := [];
    for k := 0 to |qs|
      invariant ok + Decisions(limiter.lastMove, limiter.interval, qs[k..])
             == Decisions(old(limiter.lastMove), limiter.interval, qs)
    {
      assert qs[k..][0] == qs[k] && qs[k..][1..] == qs[k + 1..];
      ghost var rest := Decisions(limiter.lastMove, limiter.interval, qs[k..]);
      var allowed := limiter.Allow(qs[k].role, qs[k].time);
      assert rest == [allowed] + Decisions(limiter.lastMove, limiter.interval, qs[k + 1..]);
      assert ok + rest == (ok + [allowed]) + rest[1..];
      ok := ok + [allowed];
    }
    assert qs[|qs|..] == [];
  }

  /** The times at which a role asks, and those at which it is let through. */
  ghost function TimesOf(qs: seq<Request>, role: int64): seq<int> {
    if qs == [] then [] else (if qs[0].role == role then [qs[0].time] else []) + TimesOf(qs[1..], role)
  }

  ghost function Accepted(qs: seq<Request>, ok: seq<bool>, role: int64): seq<int>
    requires |ok| == |qs|
  {
    if qs == [] then []
    else (if qs[0].role == role && ok[0] then [qs[0].time] else []) + Accepted(qs[1..], ok[1..], role)
  }

  /** The greedy choice from one role's times, given the last time chosen. */
  ghost function Greedy(times: seq<int>, interval: int, last: Option<int>): seq<int> {
    if times == [] then []
    else if last.None? || times[0] - last.value >= interval then
      [times[0]] + Greedy(times[1..], interval, Some(times[0]))
    else Greedy(times[1..], interval, last)
  }

  /** Each role is served as if it were alone: the requests of others change nothing for it. */
  lemma {:induction false} OthersDoNotMatter(lastMove: map<int64, int>, interval: int, qs: seq<Request>, role: int64)
    ensures Accepted(qs, Decisions(lastMove, interval, qs), role)
         == Greedy(TimesOf(qs, role), interval, Find(lastMove, role))
    decreases qs
  {
    if qs == [] {
    } else {
      var q, next := qs[0], AfterRequest(lastMove, interval, qs[0]);
      OthersDoNotMatter(next, interval, qs[1..], role);
      assert Decisions(lastMove, interval, qs)[1..] == Decisions(next, interval, qs[1..]);
      var rest := TimesOf(qs[1..], role);
      if q.role == role {
        assert TimesOf(qs, role) == [q.time] + rest;
        assert ([q.time] + rest)[1..] == rest;
      } else {
        assert TimesOf(qs, role) == rest;
      }
    }
  }

  ghost predicate Ascending(times: seq<int>) {
    forall i, j | 0 <= i < j < |times| :: times[i] <= times[j]
  }

  /** Consecutive times are at least the interval apart. */
  ghost predicate Spaced(times: seq<int>, interval: int) {
    forall i | 0 < i < |times| :: times[i] - times[i - 1] >= interval
  }

  /** s arises from times by leaving some out. */
  ghost predicate Subsequence(s: seq<int>, times: seq<int>) {
    if s == [] then true
    else times != [] && ((s[0] == times[0] && Subsequence(s[1..], times[1..])) || Subsequence(s, times[1..]))
  }

  /** The greedy choice is itself a choice that keeps the interval. */
  lemma {:induction false} GreedyIsSpaced(times: seq<int>, interval: int, last: Option<int>)
    ensures var g := Greedy(times, interval, last);
            && Subsequence(g, times) && Spaced(g, interval)
            && (g != [] && last.Some? ==> g[0] - last.value >= interval)
  {
    if times == [] {
    } else {
      if last.None? || times[0] - last.value >= interval {
        GreedyIsSpaced(times[1..], interval, Some(times[0]));
        var g, rest := Greedy(times, interval, last), Greedy(times[1..], interval, Some(times[0]));
        assert g[1..] == rest;
        forall i | 0 < i < |g| ensures g[i] - g[i - 1] >= interval {
          assert g[i] == rest[i - 1];
          assert i > 1 ==> rest[i - 1] - rest[i - 2] >= interval;
        }
      } else {
        GreedyIsSpaced(times[1..], interval, last);
      }
    }
  }

  lemma SpacedTail(s: seq<int>, interval: int)
    requires s != [] && Spaced(s, interval)
    ensures Spaced(s[1..], interval) && (|s| > 1 ==> s[1] - s[0] >= interval)
  {
    forall i | 0 < i < |s| - 1 ensures s[1..][i] - s[1..][i - 1] >= interval {
      assert s[i + 1] - s[i] >= interval;
    }
  }

  /**
   * Greedy stays ahead: no other choice is longer by more than one, and none that starts at least the
   * interval after the last time is longer at all.
   */
  lemma {:induction false} GreedyStaysAhead(s: seq<int>, times: seq<int>, interval: int, last: Option<int>)
    requires Ascending(times) && Spaced(s, interval) && Subsequence(s, times)
    requires last.Some? ==> forall i | 0 <= i < |times| :: times[i] >= last.value
    ensures |s| <= |Greedy(times, interval, last)| + 1
    ensures s == [] || last.None? || s[0] - last.value >= interval ==> |s| <= |Greedy(times, interval, last)|
  {
    if s == [] {
    } else {
      var t, rest := times[0], times[1..];
      assert Ascending(rest);
      var takes := last.None? || t - last.value >= interval;
      var next := if takes then Some(t) else last;
      if s[0] == t && Subsequence(s[1..], rest) {
        SpacedTail(s, interval);
        GreedyStaysAhead(s[1..], rest, interval, next);
      } else {
        GreedyStaysAhead(s, rest, interval, next);
      }
    }
  }

  /**
   * The limiter is optimal: of all choices from a role's requests that keep the interval, what it lets
   * through in a run is one of the longest.
   */
  lemma LimiterIsOptimal(interval: int, qs: seq<Request>, role: int64, s: seq<int>)
    requires Ascending(TimesOf(qs, role))
    requires Subsequence(s, TimesOf(qs, role)) && Spaced(s, interval)
    ensures var got := Accepted(qs, Decisions(map[], interval, qs), role);
            Subsequence(got, TimesOf(qs, role)) && Spaced(got, interval) && |s| <= |got|
  {
    OthersDoNotMatter(map[], interval, qs, role);
    GreedyIsSpaced(TimesOf(qs, role), interval, None);
    GreedyStaysAhead(s, TimesOf(qs, role), interval, None);
  }

  lemma {:induction false} SpacedOut(s: seq<int>, interval: int, i: nat, j: nat)
    requires Spaced(s, interval) && i <= j < |s|
    ensures s[j] - s[i] >= (j - i) * interval
  {
    if i == j {
    } else {
      SpacedOut(s, interval, i, j - 1);
      assert s[j] - s[j - 1] >= interval;
      assert (j - i) * interval == (j - 1 - i) * interval + interval;
    }
  }

  /** Division rounded up. */
  function Ceil(a: nat, b: nat): nat
    requires b > 0
  {
    (a + b - 1) / b
  }

  /**
   * The rate bound: in any window of length w, from its start on and before its end, at most w / interval
   * moves, rounded up, are let through. The i-th to the j-th acceptance are any that fall into the window.
   */
  lemma RateBound(interval: nat, qs: seq<Request>, role: int64, start: int, w: nat, i: nat, j: nat)
    requires interval > 0
    requires i <= j <= |Accepted(qs, Decisions(map[], interval, qs), role)|
    requires forall k | i <= k < j :: start <= Accepted(qs, Decisions(map[], interval, qs), role)[k] < start + w
    ensures j - i <= Ceil(w, interval)
  {
    var got := Accepted(qs, Decisions(map[], interval, qs), role);
    assert Spaced(got, interval) by {
      OthersDoNotMatter(map[], interval, qs, role);
      GreedyIsSpaced(TimesOf(qs, role), interval, None);
    }
    if i < j {
      SpacedOut(got, interval, i, j - 1);
      CeilBound(j - i, interval, w);
    }
  }

  lemma CeilBound(n: nat, interval: nat, w: nat)
    requires interval > 0 && n > 0 && (n - 1) * interval < w
    ensures n <= Ceil(w, interval)
  {
    var c := Ceil(w, interval);
    assert c * interval >= w by {
      assert w + interval - 1 == c * interval + (w + interval - 1) % interval;
    }
    MultiplyBack(n - 1, c, interval);
  }

  lemma MultiplyBack(a: nat, b: nat, c: nat)
    requires a * c < b * c
    ensures a < b
  {}

  /** At the shipped interval of 50 ms, in nanoseconds: at most 20 moves of a role in any second. */
  lemma TwentyPerSecond(qs: seq<Request>, role: int64, start: int, i: nat, j: nat)
    requires i <= j <= |Accepted(qs, Decisions(map[], 50_000_000, qs), role)|
    requires forall k | i <= k < j ::
               start <= Accepted(qs, Decisions(map[], 50_000_000, qs), role)[k] < start + 1_000_000_000
    ensures j - i <= 20
  {
    RateBound(50_000_000, qs, role, start, 1_000_000_000, i, j);
  }
}
