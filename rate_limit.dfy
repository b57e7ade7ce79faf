/** The `useRateLimit` hook (hooks/useRateLimit.ts): a request counter with a
    one-hour window, mirrored into the browser's storage. */
module RateLimit {
  import opened Wrappers

  const Limit := 10
  /** One hour, in milliseconds. */
  const TimeWindow := 60 * 60 * 1000

  /** The `rateLimitData` entry in storage. */
  datatype Record = Record(count: int, reset: int)

  /** The reset time `incrementCount` settles on at time `now`: a new window when no reset
      time is set (or it is 0, which JavaScript treats as unset) or the window is over,
      otherwise the current one. */
  function NextReset(resetTime: Option<int>, now: int): (reset: int)
    ensures reset >= now
    ensures reset == now + TimeWindow || (resetTime.Some? && reset == resetTime.value)
  {
    if resetTime.None? || resetTime.value == 0 || now > resetTime.value then now + TimeWindow
    else resetTime.value
  }

  /** A running window is kept as it is, whatever its length. */
  lemma NextResetKeepsOpenWindow(reset: int, now: int)
    requires reset != 0 && now <= reset
    ensures NextReset(Some(reset), now) == reset
  {
  }

  /** An expired or missing window is replaced by one ending an hour from now. */
  lemma NextResetOpensWindow(resetTime: Option<int>, now: int)
    requires resetTime.None? || resetTime.value == 0 || now > resetTime.value
    ensures NextReset(resetTime, now) == now + TimeWindow
  {
  }

  class RateLimiter {
    var requestCount: int
    var resetTime: Option<int>
    /** The browser's `localStorage` entry, which outlives the page. */
    var stored: Option<Record>

    /** The state the storage leaves behind: when an entry is stored, the counter and
        the reset time are the ones it holds. */
    predicate MirrorsStorage()
      reads this
    {
      stored.Some? ==> requestCount == stored.value.count && resetTime == Some(stored.value.reset)
    }

    /** A fresh hook: count 0, no reset time, and whatever the storage holds. */
    constructor(storage: Option<Record>)
      ensures requestCount == 0 && resetTime.None? && stored == storage
    {
      requestCount := 0;
      resetTime := None;
      stored := storage;
    }

    /** The mount effect at time `now`: an expired entry is removed and the state cleared,
        a live one is adopted; without an entry nothing changes. */
    method Load(now: int)
      modifies this
      ensures old(stored).None? ==> requestCount == old(requestCount) && resetTime == old(resetTime) && stored.None?
      ensures old(stored).Some? && now > old(stored).value.reset ==>
                requestCount == 0 && resetTime.None? && stored.None?
      ensures old(stored).Some? && now <= old(stored).value.reset ==>
                requestCount == old(stored).value.count && resetTime == Some(old(stored).value.reset)
                && stored == old(stored)
      ensures MirrorsStorage()
    {
      if stored.Some? {
        var record := stored.value;
        if now > record.reset {
          requestCount := 0;
          resetTime := None;
          stored := None;
        } else {
          requestCount := record.count;
          resetTime := Some(record.reset);
        }
      }
    }

    /** `incrementCount` at time `now`: the count goes up by exactly one (an expired
        window does not reset it), the reset time follows `NextReset`, and the new
        pair is stored. */
    method Increment(now: int)
      modifies this
      ensures requestCount == old(requestCount) + 1
      ensures resetTime == Some(NextReset(old(resetTime), now))
      ensures stored == Some(Record(requestCount, NextReset(old(resetTime), now)))
      ensures MirrorsStorage()
    {
      var newResetTime := resetTime;
      if resetTime.None? || resetTime.value == 0 || now > resetTime.value {
        newResetTime := Some(now + TimeWindow);
        resetTime := newResetTime;
      }
      var newCount := requestCount + 1;
      requestCount := newCount;
      stored := Some(Record(newCount, newResetTime.value));
    }

    /** `requestCount >= LIMIT`. */
    function IsRateLimited(): (limited: bool)
      reads this
      ensures limited <==> requestCount >= Limit
    {
      requestCount >= Limit
    }

    /** `Math.max(0, LIMIT - requestCount)`: never negative, zero exactly when limited,
        at most the limit for a non-negative count, and counting down one per request
        below the limit. */
    function RemainingRequests(): (r: int)
      reads this
      ensures r >= 0
      ensures r == 0 <==> IsRateLimited()
      ensures requestCount >= 0 ==> r <= Limit
      ensures requestCount <= Limit ==> r + requestCount == Limit
    {
      if Limit - requestCount > 0 then Limit - requestCount else 0
    }
  }

  /** A page load at time `now` followed by one request: with nothing stored or an
      expired entry the request opens a fresh window and counts as the first; with a
      live entry it is added to the stored count inside the stored window. Either way
      the storage ends up holding the new state. */
  method LoadThenRequest(storage: Option<Record>, now: int)
    returns (count: int, reset: Option<int>, after: Option<Record>)
    ensures storage.None? || now > storage.value.reset ==>
              count == 1 && reset == Some(now + TimeWindow)
    ensures storage.Some? && now <= storage.value.reset && storage.value.reset != 0 ==>
              count == storage.value.count + 1 && reset == Some(storage.value.reset)
    ensures reset.Some? && after == Some(Record(count, reset.value))
  {
    var limiter := new RateLimiter(storage);
    limiter.Load(now);
    limiter.Increment(now);
    count, reset, after := limiter.requestCount, limiter.resetTime, limiter.stored;
  }
}
