/**
 * The fixed-window, per-client-address request limiter that every request
 * passes through (`rateLimitMiddleware`). Its table maps an address to the
 * number of requests counted in the current window and the instant at which
 * that window ends; it is the only in-process business state of the server.
 */
module RateLimit {

  /** Window length: 15 minutes, in milliseconds. */
  const RATE_LIMIT_WINDOW: nat := 15 * 60 * 1000
  /** Most requests admitted per address and window. */
  const RATE_LIMIT_MAX: nat := 100

  datatype Window = Window(count: nat, resetTime: int)

  type Table = map<string, Window>

  /** The invariant the limiter keeps: every counted window holds 1..RATE_LIMIT_MAX requests. */
  predicate Bounded(table: Table)
  {
    forall ip :: ip in table ==> 1 <= table[ip].count <= RATE_LIMIT_MAX
  }

  /** The limiter's answer to one request and the table it leaves behind. */
  datatype Verdict = Verdict(table: Table, admitted: bool)

  /**
   * One pass through the middleware for a request from `ip` at instant `now`.
   * `production` is whether the server runs with NODE_ENV = "production".
   */
  function Step(table: Table, production: bool, ip: string, now: int): (v: Verdict)
    ensures Bounded(table) ==> Bounded(v.table)
    ensures v.table.Keys == table.Keys + (if production then {ip} else {})
    ensures forall other :: other in table && other != ip ==> v.table[other] == table[other]
    ensures !v.admitted ==> v.table == table
  {
    if !production then Verdict(table, true)
    else if ip !in table then Verdict(table[ip := Window(1, now + RATE_LIMIT_WINDOW)], true)
    else if now > table[ip].resetTime then Verdict(table[ip := Window(1, now + RATE_LIMIT_WINDOW)], true)
    else if table[ip].count >= RATE_LIMIT_MAX then Verdict(table, false)
    else Verdict(table[ip := table[ip].(count := table[ip].count + 1)], true)
  }

  /** Outside production every request is admitted and the table is left alone. */
  lemma StepOutsideProduction(table: Table, ip: string, now: int)
    ensures Step(table, false, ip, now) == Verdict(table, true)
  {
  }

  /**
   * An address with no window, or whose window has ended, is admitted and
   * starts a fresh window holding this one request, whatever it counted before.
   */
  lemma StepStartsWindow(table: Table, ip: string, now: int)
    requires ip !in table || now > table[ip].resetTime
    ensures Step(table, true, ip, now).admitted
    ensures Step(table, true, ip, now).table[ip] == Window(1, now + RATE_LIMIT_WINDOW)
  {
  }

  /**
   * Inside its window a request is refused (429) exactly when the window is
   * full; a refused request changes nothing, an admitted one adds exactly one
   * to the count and keeps the window's end.
   */
  lemma StepInsideWindow(table: Table, ip: string, now: int)
    requires ip in table && now <= table[ip].resetTime
    ensures Step(table, true, ip, now).admitted <==> table[ip].count < RATE_LIMIT_MAX
    ensures !Step(table, true, ip, now).admitted ==> Step(table, true, ip, now).table == table
    ensures Step(table, true, ip, now).admitted ==>
              Step(table, true, ip, now).table[ip] == Window(table[ip].count + 1, table[ip].resetTime)
  {
  }

  datatype Request = Request(ip: string, now: int)

  /** How many of `reqs`, fed one after another to the limiter, come from `ip` and are admitted. */
  function AdmittedFrom(table: Table, production: bool, reqs: seq<Request>, ip: string): nat
    decreases |reqs|
  {
    if reqs == [] then 0
    else
      var v := Step(table, production, reqs[0].ip, reqs[0].now);
      (if reqs[0].ip == ip && v.admitted then 1 else 0) + AdmittedFrom(v.table, production, reqs[1..], ip)
  }

  /**
   * The limiter's promise: while an address's window has not ended, at most
   * RATE_LIMIT_MAX - count more of its requests are admitted, however its
   * requests interleave with those of other addresses.
   */
  lemma {:induction false} WindowBound(table: Table, reqs: seq<Request>, ip: string)
    requires Bounded(table) && ip in table
    requires forall k :: 0 <= k < |reqs| && reqs[k].ip == ip ==> reqs[k].now <= table[ip].resetTime
    ensures AdmittedFrom(table, true, reqs, ip) <= RATE_LIMIT_MAX - table[ip].count
    decreases |reqs|
  {
    if reqs != [] {
      var v := Step(table, true, reqs[0].ip, reqs[0].now);
      assert v.table[ip].resetTime == table[ip].resetTime;
      forall k | 0 <= k < |reqs[1..]| && reqs[1..][k].ip == ip
        ensures reqs[1..][k].now <= v.table[ip].resetTime
      {
        assert reqs[1..][k] == reqs[k + 1];
      }
      WindowBound(v.table, reqs[1..], ip);
    }
  }

  /**
   * Consequently an address that starts a window at `start` (because it has
   * none, or because its previous window has ended) gets at most
   * RATE_LIMIT_MAX requests admitted up to the end of that window.
   */
  lemma {:induction false} FreshWindowBound(table: Table, start: int, reqs: seq<Request>, ip: string)
    requires Bounded(table) && (ip !in table || start > table[ip].resetTime)
    requires forall k :: 0 <= k < |reqs| && reqs[k].ip == ip ==> reqs[k].now <= start + RATE_LIMIT_WINDOW
    ensures AdmittedFrom(table, true, [Request(ip, start)] + reqs, ip) <= RATE_LIMIT_MAX
  {
    var all := [Request(ip, start)] + reqs;
    var v := Step(table, true, ip, start);
    assert all[0] == Request(ip, start) && all[1..] == reqs;
    WindowBound(v.table, reqs, ip);
  }

  /** The middleware's in-memory table, updated in place by each request. */
  class RateLimiter {
    /** Whether NODE_ENV is "production"; outside production the limiter is off. */
    const production: bool
    var table: Table

    ghost predicate Valid()
      reads this
    {
      Bounded(table)
    }

    constructor (production: bool)
      ensures Valid()
      ensures this.production == production && table == map[]
    {
      this.production := production;
      table := map[];
    }

    /** Passes one request from `ip` at instant `now`; false means answer 429. */
    method Admit(ip: string, now: int) returns (admitted: bool)
      requires Valid()
      modifies this
      ensures Valid()
      ensures Verdict(table, admitted) == Step(old(table), production, ip, now)
    {
      if !production {
        return true;
      }
      if ip !in table {
        table := table[ip := Window(1, now + RATE_LIMIT_WINDOW)];
        return true;
      }
      if now > table[ip].resetTime {
        table := table[ip := Window(1, now + RATE_LIMIT_WINDOW)];
        return true;
      }
      if table[ip].count >= RATE_LIMIT_MAX {
        return false;
      }
      table := table[ip := table[ip].(count := table[ip].count + 1)];
      admitted := true;
    }
  }
}
