/**
 * The per-user rate limiter in front of thumbnail generation
 * (server/middlewares/rateLimiter.ts): a map from user to a request count
 * and the time its window ends. The clock is a parameter.
 */
module RateLimiter {
  import opened Wrappers

  /** Requests allowed per window. */
  const RateLimit: nat := 10
  /** One hour, in milliseconds. */
  const WindowMs: nat := 60 * 60 * 1000

  datatype Entry = Entry(count: nat, resetTime: nat)

  type Counts = map<string, Entry>

  datatype Verdict =
    | Allowed
    | Unauthorized             // 401, no session user
    | TooMany(resetTime: nat)  // 429, with the current window's end

  /** Every stored count lies in 1 .. RateLimit. */
  ghost predicate WellFormed(counts: Counts)
  {
    forall u :: u in counts ==> 1 <= counts[u].count <= RateLimit
  }

  /** A window is over only strictly after its reset time. */
  predicate Expired(e: Entry, now: nat)
  {
    now > e.resetTime
  }

  /** `thumbnailRateLimit` for the session user `user` at time `now`: the new counts and the verdict. */
  function Check(counts: Counts, user: Option<string>, now: nat): (r: (Counts, Verdict))
    ensures (user.None? || user.value == "") ==> r == (counts, Unauthorized)
    ensures user.Some? && user.value != "" ==>
              var u := user.value;
              && u in r.0
              && (forall k :: k != u ==> (k in r.0 <==> k in counts) && (k in counts ==> r.0[k] == counts[k]))
              && (u !in counts || Expired(counts[u], now) ==> r.0[u] == Entry(1, now + WindowMs) && r.1 == Allowed)
              && (u in counts && !Expired(counts[u], now) && counts[u].count >= RateLimit ==>
                    r == (counts, TooMany(counts[u].resetTime)))
              && (u in counts && !Expired(counts[u], now) && counts[u].count < RateLimit ==>
                    r.0[u] == Entry(counts[u].count + 1, counts[u].resetTime) && r.1 == Allowed)
    ensures WellFormed(counts) ==> WellFormed(r.0)
    ensures !r.1.Allowed? ==> r.0 == counts
    ensures r.1.Allowed? ==> user.Some? && user.value in r.0 && (user.value in counts ==> r.0[user.value] != counts[user.value])
  {
    match user
    case None => (counts, Unauthorized)
    case Some(u) =>
      if u == "" then (counts, Unauthorized)
      else if u !in counts || Expired(counts[u], now) then (counts[u := Entry(1, now + WindowMs)], Allowed)
      else if counts[u].count >= RateLimit then (counts, TooMany(counts[u].resetTime))
      else (counts[u := Entry(counts[u].count + 1, counts[u].resetTime)], Allowed)
  }

  /** A run of requests by one user: the counts after them and how many were allowed. */
  function Replay(counts: Counts, u: string, times: seq<nat>): (Counts, nat)
    decreases |times|
  {
    if |times| == 0 then (counts, 0)
    else
      var (next, verdict) := Check(counts, Some(u), times[0]);
      var (last, n) := Replay(next, u, times[1..]);
      (last, if verdict.Allowed? then n + 1 else n)
  }

  /**
   * Inside an open window, a user can be allowed only as many more requests
   * as the limit leaves, and the window's end does not move.
   */
  lemma {:induction false} WindowAllowance(counts: Counts, u: string, times: seq<nat>)
    requires u != "" && WellFormed(counts) && u in counts
    requires forall i :: 0 <= i < |times| ==> times[i] <= counts[u].resetTime
    ensures Replay(counts, u, times).1 <= RateLimit - counts[u].count
    ensures u in Replay(counts, u, times).0 && Replay(counts, u, times).0[u].resetTime == counts[u].resetTime
    decreases |times|
  {
    if |times| > 0 {
      var (next, verdict) := Check(counts, Some(u), times[0]);
      assert forall i :: 0 <= i < |times[1..]| ==> times[1..][i] <= next[u].resetTime by {
        forall i | 0 <= i < |times[1..]| ensures times[1..][i] <= next[u].resetTime {
          assert times[1..][i] == times[i + 1];
        }
      }
      WindowAllowance(next, u, times[1..]);
    }
  }

  /**
   * At most RateLimit requests are allowed in one window: a request that
   * opens a window at `start`, followed by any requests up to the window's
   * end, lets through at most RateLimit of them in total.
   */
  lemma {:induction false} AtMostLimitPerWindow(counts: Counts, u: string, start: nat, times: seq<nat>)
    requires u != "" && WellFormed(counts)
    requires u !in counts || Expired(counts[u], start)
    requires forall i :: 0 <= i < |times| ==> times[i] <= start + WindowMs
    ensures Replay(counts, u, [start] + times).1 <= RateLimit
  {
    var (next, verdict) := Check(counts, Some(u), start);
    assert ([start] + times)[1..] == times;
    WindowAllowance(next, u, times);
  }

}
