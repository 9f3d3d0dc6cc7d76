/**
 * The preview rate limiter of lib/rate-limit.ts: a process-wide map from caller key to
 * `{ count, date }` allowing one preview per key per UTC day. Days are passed in as
 * day numbers; two ISO date strings are equal exactly when their day numbers are.
 */
module RateLimit {

  /** The `{ count, date }` record kept per caller key. */
  datatype Attempt = Attempt(count: nat, date: int)

  type Attempts = map<string, Attempt>

  /** One `checkRateLimit` call: whether it allows the preview, and the map after it. */
  datatype Check = Check(allowed: bool, attempts: Attempts)

  /**
   * `checkRateLimit(ip)` on day `today`, as a function of the map before the call. A call
   * is allowed exactly when the key has no record for today or one with count 0; it only
   * ever writes its own key, which afterwards has a record for today, and a refusal
   * changes nothing.
   */
  function CheckStep(attempts: Attempts, ip: string, today: int): (r: Check)
    ensures r.allowed <==> ip !in attempts || attempts[ip].date != today || attempts[ip].count == 0
    ensures !r.allowed ==> r.attempts == attempts
    ensures r.attempts.Keys == attempts.Keys + {ip}
    ensures forall k :: k in attempts && k != ip ==> r.attempts[k] == attempts[k]
    ensures r.attempts[ip].date == today && r.attempts[ip].count >= 1
  {
    if ip !in attempts || attempts[ip].date != today then Check(true, attempts[ip := Attempt(1, today)])
    else if attempts[ip].count >= 1 then Check(false, attempts)
    else Check(true, attempts[ip := attempts[ip].(count := attempts[ip].count + 1)])
  }

  /** Every stored record has count 1 (the only count the limiter ever stores). */
  predicate AllCountsOne(attempts: Attempts)
  {
    forall ip :: ip in attempts ==> attempts[ip].count == 1
  }

  /** The module-level `previewAttempts` map and the two functions that change it. */
  class RateLimiter {
    var previewAttempts: Attempts

    constructor ()
      ensures previewAttempts == map[]
    {
      previewAttempts := map[];
    }

    /** `checkRateLimit(ip)` on day `today`. */
    method CheckRateLimit(ip: string, today: int) returns (allowed: bool)
      modifies this
      ensures Check(allowed, previewAttempts) == CheckStep(old(previewAttempts), ip, today)
    {
      if ip !in previewAttempts || previewAttempts[ip].date != today {
        previewAttempts := previewAttempts[ip := Attempt(1, today)];
        return true;
      }
      var row := previewAttempts[ip];
      if row.count >= 1 {
        return false;
      }
      previewAttempts := previewAttempts[ip := row.(count := row.count + 1)];
      allowed := true;
    }

    /** `resetRateLimit(ip)`: forget the caller's record. */
    method ResetRateLimit(ip: string)
      modifies this
      ensures previewAttempts == old(previewAttempts) - {ip}
    {
      previewAttempts := previewAttempts - {ip};
    }
  }

  // ---------------------------------------------------------------- single calls

  /** The first call for a key on a day (no record, or a record of another day) is allowed and stores count 1 for that day. */
  lemma FirstCallOfDayAllowed(attempts: Attempts, ip: string, today: int)
    requires ip !in attempts || attempts[ip].date != today
    ensures CheckStep(attempts, ip, today) == Check(true, attempts[ip := Attempt(1, today)])
  {
  }

  /** A second call with the same key on the same day is refused and changes nothing. */
  lemma SecondCallSameDayRefused(attempts: Attempts, ip: string, today: int)
    ensures var first := CheckStep(attempts, ip, today);
      CheckStep(first.attempts, ip, today) == Check(false, first.attempts)
  {
  }

  /** After `resetRateLimit(ip)` the next call for that key is allowed, whatever the day. */
  lemma ResetThenAllowed(attempts: Attempts, ip: string, today: int)
    ensures CheckStep(attempts - {ip}, ip, today).allowed
  {
  }

  /**
   * Every call keeps all stored counts at 1, so from an empty map the `record.count++`
   * branch is never taken: a same-day record always has count 1 and refuses.
   */
  lemma CheckKeepsCountsOne(attempts: Attempts, ip: string, today: int)
    requires AllCountsOne(attempts)
    ensures AllCountsOne(CheckStep(attempts, ip, today).attempts)
    ensures ip in attempts && attempts[ip].date == today ==> !CheckStep(attempts, ip, today).allowed
  {
  }

  // ---------------------------------------------------------------- runs of calls

  /** A `checkRateLimit` call: the caller key and the day it is made on. */
  datatype Call = Call(ip: string, day: int)

  /** The map after a run of calls. */
  function After(attempts: Attempts, calls: seq<Call>): Attempts
  {
    if |calls| == 0 then attempts
    else var last := calls[|calls| - 1];
      CheckStep(After(attempts, calls[..|calls| - 1]), last.ip, last.day).attempts
  }

  /** Whether the `i`-th call of a run is allowed. */
  function AllowedAt(attempts: Attempts, calls: seq<Call>, i: nat): bool
    requires i < |calls|
  {
    CheckStep(After(attempts, calls[..i]), calls[i].ip, calls[i].day).allowed
  }

  /** Days never go backwards across a run. */
  predicate DaysMonotone(calls: seq<Call>)
  {
    forall i, j :: 0 <= i < j < |calls| ==> calls[i].day <= calls[j].day
  }

  /** Resets never happen inside a run, so after an allowed call the key's record keeps its day. */
  lemma {:induction false} RecordPersists(attempts: Attempts, calls: seq<Call>, i: nat, t: nat)
    requires i < t <= |calls|
    requires AllowedAt(attempts, calls, i)
    requires forall x :: i < x < t && calls[x].ip == calls[i].ip ==> calls[x].day == calls[i].day
    ensures var m := After(attempts, calls[..t]);
      calls[i].ip in m && m[calls[i].ip].date == calls[i].day && m[calls[i].ip].count >= 1
    decreases t
  {
    var k := calls[i].ip;
    if t == i + 1 {
      assert calls[..t][..i] == calls[..i];
    } else {
      RecordPersists(attempts, calls, i, t - 1);
      assert calls[..t][..t - 1] == calls[..t - 1];
    }
  }

  /**
   * Without a reset and with a clock that does not go backwards, at most one call per
   * key per day is allowed.
   */
  lemma AtMostOnePerKeyPerDay(attempts: Attempts, calls: seq<Call>, i: nat, j: nat)
    requires i < j < |calls|
    requires DaysMonotone(calls)
    requires calls[i] == calls[j]
    ensures !(AllowedAt(attempts, calls, i) && AllowedAt(attempts, calls, j))
  {
    if AllowedAt(attempts, calls, i) {
      forall x | i < x < j && calls[x].ip == calls[i].ip
        ensures calls[x].day == calls[i].day
      {
        assert calls[i].day <= calls[x].day <= calls[j].day;
      }
      RecordPersists(attempts, calls, i, j);
    }
  }
}
