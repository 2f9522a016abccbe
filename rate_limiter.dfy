// The `user_sessions` quota table and the rate limiter over it
// (app/src/auth/rate_limiter.py). Each call's `today`, `now` and whether the
// database answered are parameters; a failed call leaves the table as it was,
// since nothing is committed before the error.

module RateLimiter {
  import opened Wrappers

  /** The table's primary key: one row per session per day. */
  datatype Key = Key(session: string, day: int)

  /** The rest of a row: the client address, today's count and the last query time. */
  datatype Row = Row(ip: string, count: nat, lastQuery: int)

  const SessionDailyLimit: nat := 30
  const IpDailyLimit: nat := 1000

  datatype LimitType = SessionLimit | IpLimit

  /** What `check_and_increment` returns. */
  datatype Decision = Decision(allowed: bool, limitType: Option<LimitType>, sessionCount: nat, ipCount: nat)

  /** What `get_usage_stats` returns. */
  datatype Usage = Usage(queriesToday: nat, queriesRemaining: nat, lastQuery: Option<int>, dailyLimit: nat)

  /** The share of one row in the day's total for an address. */
  function Counted(k: Key, r: Row, ip: string, day: int): nat
  {
    if k.day == day && r.ip == ip then r.count else 0
  }

  /** `SUM(query_count)` over the rows of `day` whose address is `ip`. */
  ghost function Total(rows: map<Key, Row>, ip: string, day: int): nat
    decreases |rows|
  {
    if rows == map[] then 0
    else
      var k :| k in rows;
      Counted(k, rows[k], ip, day) + Total(rows - {k}, ip, day)
  }

  /** The sum does not depend on the order the rows are visited in. */
  lemma {:induction false} TotalRemove(rows: map<Key, Row>, k: Key, ip: string, day: int)
    requires k in rows
    ensures Total(rows, ip, day) == Counted(k, rows[k], ip, day) + Total(rows - {k}, ip, day)
    decreases |rows|
  {
    var j :| j in rows && Total(rows, ip, day) == Counted(j, rows[j], ip, day) + Total(rows - {j}, ip, day);
    if j != k {
      var rj := rows - {j};
      var rk := rows - {k};
      assert k in rj && j in rk;
      TotalRemove(rj, k, ip, day);
      TotalRemove(rk, j, ip, day);
      assert rj - {k} == rk - {j};
    }
  }

  /** Writing row `k` changes the sum by the difference of its old and new shares. */
  lemma TotalUpdate(rows: map<Key, Row>, k: Key, r: Row, ip: string, day: int)
    ensures Total(rows[k := r], ip, day) + (if k in rows then Counted(k, rows[k], ip, day) else 0)
         == Total(rows, ip, day) + Counted(k, r, ip, day)
  {
    TotalRemove(rows[k := r], k, ip, day);
    if k in rows {
      TotalRemove(rows, k, ip, day);
      assert rows[k := r] - {k} == rows - {k};
    } else {
      assert rows[k := r] - {k} == rows;
    }
  }

  /** Deleting row `k` takes its share out of the sum. */
  lemma TotalDelete(rows: map<Key, Row>, k: Key, ip: string, day: int)
    ensures Total(rows - {k}, ip, day) + (if k in rows then Counted(k, rows[k], ip, day) else 0)
         == Total(rows, ip, day)
  {
    if k in rows {
      TotalRemove(rows, k, ip, day);
    } else {
      assert rows - {k} == rows;
    }
  }

  /** No session has gone past its daily limit. */
  ghost predicate WithinSessionLimit(rows: map<Key, Row>)
  {
    forall k :: k in rows ==> rows[k].count <= SessionDailyLimit
  }

  class Sessions {
    var rows: map<Key, Row>

    constructor()
      ensures rows == map[]
    {
      rows := map[];
    }

    /** Today's count for a session: 0 when it has no row for today. */
    function SessionCount(session: string, today: int): nat
      reads this
    {
      var k := Key(session, today);
      if k in rows then rows[k].count else 0
    }

    /** The address-wide `SUM` query: one pass over the rows. */
    method IpCount(ip: string, today: int) returns (n: nat)
      ensures n == Total(rows, ip, today)
    {
      var rest := rows;
      n := 0;
      while rest != map[]
        invariant n + Total(rest, ip, today) == Total(rows, ip, today)
        decreases |rest|
      {
        var k :| k in rest;
        TotalRemove(rest, k, ip, today);
        n := n + Counted(k, rest[k], ip, today);
        rest := rest - {k};
      }
    }

    /**
     * `check_and_increment`: the session limit is checked before the address
     * limit; a refused call writes nothing; an allowed one adds one query to
     * the session's row for today, creating it with the caller's address when
     * absent. A database failure lets the query through with zero counts.
     */
    method CheckAndIncrement(session: string, ip: string, today: int, now: int, available: bool)
      returns (d: Decision)
      modifies this
      ensures var k := Key(session, today);
        var sc := old(SessionCount(session, today));
        var ic := Total(old(rows), ip, today);
        && (!available ==> d == Decision(true, None, 0, 0) && rows == old(rows))
        && (available && sc >= SessionDailyLimit ==>
              d == Decision(false, Some(SessionLimit), sc, ic) && rows == old(rows))
        && (available && sc < SessionDailyLimit && ic >= IpDailyLimit ==>
              d == Decision(false, Some(IpLimit), sc, ic) && rows == old(rows))
        && (available && sc < SessionDailyLimit && ic < IpDailyLimit ==>
              && d == Decision(true, None, sc + 1, ic + 1)
              && rows == old(rows)[k := Row(if k in old(rows) then old(rows)[k].ip else ip, sc + 1, now)])
      ensures WithinSessionLimit(old(rows)) ==> WithinSessionLimit(rows)
    {
      if !available {
        return Decision(true, None, 0, 0);
      }
      var k := Key(session, today);
      var sessionCount := SessionCount(session, today);
      var ipCount := IpCount(ip, today);
      if sessionCount >= SessionDailyLimit {
        return Decision(false, Some(SessionLimit), sessionCount, ipCount);
      }
      if ipCount >= IpDailyLimit {
        return Decision(false, Some(IpLimit), sessionCount, ipCount);
      }
      if k in rows {
        rows := rows[k := Row(rows[k].ip, rows[k].count + 1, now)];
      } else {
        rows := rows[k := Row(ip, 1, now)];
      }
      d := Decision(true, None, sessionCount + 1, ipCount + 1);
    }

    /** `get_usage_stats`: today's count and what is left of the limit. */
    function UsageStats(session: string, today: int, available: bool): (u: Usage)
      reads this
      ensures u.dailyLimit == SessionDailyLimit
      ensures u.queriesToday < SessionDailyLimit ==> u.queriesToday + u.queriesRemaining == SessionDailyLimit
      ensures u.queriesToday >= SessionDailyLimit ==> u.queriesRemaining == 0
      ensures available && Key(session, today) in rows ==>
        u.queriesToday == rows[Key(session, today)].count &&
        u.lastQuery == Some(rows[Key(session, today)].lastQuery)
      ensures !(available && Key(session, today) in rows) ==>
        u == Usage(0, SessionDailyLimit, None, SessionDailyLimit)
    {
      var k := Key(session, today);
      if available && k in rows then
        var c := rows[k].count;
        Usage(c, if SessionDailyLimit >= c then SessionDailyLimit - c else 0, Some(rows[k].lastQuery), SessionDailyLimit)
      else Usage(0, SessionDailyLimit, None, SessionDailyLimit)
    }

    /** `reset_session`: removes the session's row for today and nothing else. */
    method ResetSession(session: string, today: int, available: bool) returns (ok: bool)
      modifies this
      ensures ok == available
      ensures rows == if available then old(rows) - {Key(session, today)} else old(rows)
      ensures WithinSessionLimit(old(rows)) ==> WithinSessionLimit(rows)
    {
      if available {
        rows := rows - {Key(session, today)};
      }
      ok := available;
    }
  }

  /**
   * An allowed query adds one to the day's total of the address stored in
   * the session's row, and to no other address's total.
   */
  lemma AllowedCountsOnce(rows: map<Key, Row>, session: string, ip: string, today: int, now: int, other: string)
    ensures var k := Key(session, today);
      var stored := if k in rows then rows[k].ip else ip;
      var c := if k in rows then rows[k].count else 0;
      var after := rows[k := Row(stored, c + 1, now)];
      Total(after, other, today) == Total(rows, other, today) + (if other == stored then 1 else 0)
  {
    var k := Key(session, today);
    var stored := if k in rows then rows[k].ip else ip;
    var c := if k in rows then rows[k].count else 0;
    TotalUpdate(rows, k, Row(stored, c + 1, now), other, today);
  }

  /**
   * The statistics and the limit check agree: with the database up, nothing
   * remains exactly when the next query would be refused for its session.
   */
  lemma UsageAgreesWithLimit(t: Sessions, session: string, today: int)
    ensures t.UsageStats(session, today, true).queriesRemaining == 0 <==>
            t.SessionCount(session, today) >= SessionDailyLimit
  {
  }
}
