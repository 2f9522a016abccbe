// Session bookkeeping over the same `user_sessions` table
// (app/src/auth/user_session.py).

module UserSession {
  import opened Wrappers
  import opened RateLimiter

  /** What `get_session_info` returns for a row. */
  datatype SessionInfo = SessionInfo(sessionId: string, ipAddress: string, queryCount: nat, lastQueryDate: int, lastQueryTimestamp: int)

  /**
   * `create_session`: inserts today's row for the session with a zero count;
   * an existing row is left as it is. Reports whether the database answered.
   */
  method CreateSession(t: Sessions, session: string, ip: string, today: int, now: int, available: bool)
    returns (ok: bool)
    modifies t
    ensures ok == available
    ensures t.rows == if available then Created(old(t.rows), session, ip, today, now) else old(t.rows)
    ensures WithinSessionLimit(old(t.rows)) ==> WithinSessionLimit(t.rows)
  {
    var k := Key(session, today);
    if available && k !in t.rows {
      t.rows := t.rows[k := Row(ip, 0, now)];
    }
    ok := available;
  }

  /** The table after `create_session`, as a value. */
  function Created(rows: map<Key, Row>, session: string, ip: string, today: int, now: int): (r: map<Key, Row>)
    ensures Key(session, today) in r
    ensures Key(session, today) in rows ==> r == rows
    ensures forall k :: k != Key(session, today) ==> (k in r <==> k in rows)
  {
    var k := Key(session, today);
    if k in rows then rows else rows[k := Row(ip, 0, now)]
  }

  /** Creating a session twice is the same as creating it once, whatever the second call's address and time. */
  lemma CreateIdempotent(rows: map<Key, Row>, session: string, ip: string, ip2: string, today: int, now: int, now2: int)
    ensures Created(Created(rows, session, ip, today, now), session, ip2, today, now2) ==
            Created(rows, session, ip, today, now)
  {
  }

  /** A created session adds nothing to any address's count for the day. */
  lemma CreateCountsNothing(rows: map<Key, Row>, session: string, ip: string, today: int, now: int, other: string)
    ensures Total(Created(rows, session, ip, today, now), other, today) == Total(rows, other, today)
  {
    var k := Key(session, today);
    if k !in rows {
      TotalUpdate(rows, k, Row(ip, 0, now), other, today);
    }
  }

  /** `get_session_info`: today's row for the session, or nothing when absent or on error. */
  function SessionInfoOf(t: Sessions, session: string, today: int, available: bool): (r: Option<SessionInfo>)
    reads t
    ensures r.Some? <==> available && Key(session, today) in t.rows
    ensures r.Some? ==>
      var row := t.rows[Key(session, today)];
      r.value == SessionInfo(session, row.ip, row.count, today, row.lastQuery)
  {
    var k := Key(session, today);
    if available && k in t.rows then
      Some(SessionInfo(session, t.rows[k].ip, t.rows[k].count, today, t.rows[k].lastQuery))
    else None
  }

  /** A freshly created session is found with a zero count and the creating address. */
  lemma CreatedIsFound(rows: map<Key, Row>, session: string, ip: string, today: int, now: int)
    requires Key(session, today) !in rows
    ensures var r := Created(rows, session, ip, today, now)[Key(session, today)];
      r.count == 0 && r.ip == ip
  {
  }
}
