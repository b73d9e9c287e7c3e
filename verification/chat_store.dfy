/** The chat back end's store (backend/database.py): a fixed-window request
    counter per client address and the conversation sessions. The SQLite
    tables `rate_limits`, `conversation_sessions` and `chat_history` become the
    fields of the class `Database`; `datetime.now()` becomes a clock value in
    whole seconds passed in by the caller. */
module ChatStore {
  import opened Wrappers
  import opened Text

  /** `timedelta(hours=1)` and `timedelta(days=1)`, in seconds. */
  const HOUR: int := 3600
  const DAY: int := 86400

  /** The default `limit` of check_rate_limit, and the one the middleware passes. */
  const DEFAULT_LIMIT: int := 3

  /** save_conversation keeps only the last 20 messages (10 turns). */
  const HISTORY_CAP: nat := 20

  // ---------------------------------------------------------------------------
  // Rate limiter

  /** A row of `rate_limits`: request_count and last_reset. */
  datatype RateRow = RateRow(requestCount: int, lastReset: int)

  /** The outcome of one check_rate_limit call: the row it leaves in the
      table, whether the request is allowed, and the remaining count it reports. */
  datatype Admission = Admission(row: RateRow, allowed: bool, remaining: int)

  function Lookup(rates: map<string, RateRow>, ip: string): Option<RateRow> {
    if ip in rates then Some(rates[ip]) else None
  }

  /** check_rate_limit on the row of one address (None when the address has
      no row yet). */
  function Admit(row: Option<RateRow>, now: int, limit: int): (a: Admission)
    // A request is refused only inside a running window whose count has reached the limit.
    ensures a.allowed <==> row.None? || now - row.value.lastReset >= HOUR || row.value.requestCount < limit
    // The first request of an address, and the first one an hour or more after
    // the window opened, open a new window at `now` holding one request.
    ensures row.None? || now - row.value.lastReset >= HOUR ==> a.row == RateRow(1, now)
    // Inside the window an allowed request is counted once; a refused one changes nothing.
    ensures row.Some? && now - row.value.lastReset < HOUR ==>
      a.row == if a.allowed then RateRow(row.value.requestCount + 1, row.value.lastReset) else row.value
    // The reported remaining count is what the limit leaves after this request.
    ensures a.allowed ==> a.remaining == limit - a.row.requestCount
    ensures !a.allowed ==> a.remaining == 0
    // With a positive limit the counter stays within 1..limit and the
    // remaining count within 0..limit-1.
    ensures 1 <= limit && (row.Some? ==> 1 <= row.value.requestCount <= limit) ==>
      1 <= a.row.requestCount <= limit && 0 <= a.remaining < limit
  {
    if row.None? then Admission(RateRow(1, now), true, limit - 1)
    else if now - row.value.lastReset >= HOUR then Admission(RateRow(1, now), true, limit - 1)
    else if row.value.requestCount >= limit then Admission(row.value, false, 0)
    else
      var count := row.value.requestCount + 1;
      Admission(RateRow(count, row.value.lastReset), true, limit - count)
  }

  /** How many of the requests one address sends at the clock values `times`
      (in order) the limiter lets through, starting from the address's row. */
  function AdmittedCount(row: Option<RateRow>, times: seq<int>, limit: int): nat
    decreases |times|
  {
    if times == [] then 0
    else
      var a := Admit(row, times[0], limit);
      (if a.allowed then 1 else 0) + AdmittedCount(Some(a.row), times[1..], limit)
  }

  /** Inside one window the limiter lets through exactly as many requests as
      the limit has left, and no more. */
  lemma {:induction false} AdmittedWithinWindow(row: RateRow, times: seq<int>, limit: int)
    requires forall i :: 0 <= i < |times| ==> times[i] - row.lastReset < HOUR
    ensures AdmittedCount(Some(row), times, limit) == Min(|times|, Max(0, limit - row.requestCount))
    decreases |times|
  {
    if times != [] {
      var a := Admit(Some(row), times[0], limit);
      assert a.row.lastReset == row.lastReset;
      AdmittedWithinWindow(a.row, times[1..], limit);
    }
  }

  /** "3 requests per hour": of the requests an address sends within an hour
      of its first one, the first `limit` get through and the rest are refused. */
  lemma AtMostLimitPerHour(times: seq<int>, limit: int)
    requires 1 <= limit
    requires forall i :: 0 <= i < |times| ==> times[i] - times[0] < HOUR
    ensures AdmittedCount(None, times, limit) == Min(|times|, limit)
  {
    if times != [] {
      var a := Admit(None, times[0], limit);
      AdmittedWithinWindow(a.row, times[1..], limit);
    }
  }

  /** What get_rate_limit_info reports: requests_made, reset_time (None when
      the address has no row) and time_until_reset in whole seconds. */
  datatype RateInfo = RateInfo(requestsMade: int, resetTime: Option<int>, timeUntilReset: int)

  function InfoOf(row: Option<RateRow>, now: int): (info: RateInfo)
    ensures row.None? ==> info == RateInfo(0, None, 0)
    ensures row.Some? ==>
      info.requestsMade == row.value.requestCount && info.resetTime == Some(row.value.lastReset + HOUR)
    // The wait is never negative, is positive exactly while the reset lies
    // ahead, and then reaches the reset time exactly.
    ensures info.timeUntilReset >= 0
    ensures info.resetTime.Some? ==> (info.timeUntilReset > 0 <==> now < info.resetTime.value)
    ensures info.timeUntilReset > 0 ==> info.resetTime == Some(now + info.timeUntilReset)
  {
    match row
    case None => RateInfo(0, None, 0)
    case Some(r) => RateInfo(r.requestCount, Some(r.lastReset + HOUR), Max(0, r.lastReset + HOUR - now))
  }

  /** The report predicts the limiter: while the reported wait is positive the
      next request is refused exactly when the reported count has reached the
      limit; when the wait is zero the next request opens a new window. */
  lemma InfoPredictsAdmission(row: Option<RateRow>, now: int, limit: int)
    ensures InfoOf(row, now).timeUntilReset > 0 ==>
      (Admit(row, now, limit).allowed <==> InfoOf(row, now).requestsMade < limit)
    ensures InfoOf(row, now).timeUntilReset == 0 ==>
      Admit(row, now, limit).allowed && Admit(row, now, limit).row == RateRow(1, now)
  {
  }

  /** Right after an allowed request, with a clock that does not run
      backwards, the report shows the new count and a wait of at most an hour. */
  lemma InfoAfterAdmission(row: Option<RateRow>, now: int, limit: int)
    requires row.Some? ==> row.value.lastReset <= now
    requires Admit(row, now, limit).allowed
    ensures var a := Admit(row, now, limit);
      InfoOf(Some(a.row), now).requestsMade == a.row.requestCount
      && 0 < InfoOf(Some(a.row), now).timeUntilReset <= HOUR
  {
  }

  /** A refused request sees a report of a positive wait and a count that
      has reached the limit, which is what the 429 answer carries. */
  lemma RefusalReportsWait(row: Option<RateRow>, now: int, limit: int)
    requires !Admit(row, now, limit).allowed
    ensures InfoOf(row, now).timeUntilReset > 0 && InfoOf(row, now).requestsMade >= limit
  {
  }

  // ---------------------------------------------------------------------------
  // Conversation sessions

  /** A message of a stored conversation: role, content and its timestamp. */
  datatype Turn = Turn(role: string, content: string, timestamp: int)

  /** A row of `conversation_sessions` (whose primary key is session_id alone).
      `history` stands for the conversation_history text: `Some(turns)` when it
      parses as JSON, `None` when json.loads raises JSONDecodeError. */
  datatype Session = Session(ipAddress: string, history: Option<seq<Turn>>, lastActivity: int)

  /** A row of `chat_history`. */
  datatype ChatRecord = ChatRecord(ipAddress: string, sessionId: string, message: string, response: string, createdAt: int)

  /** The messages a stored history yields: unparsable text counts as []. */
  function Parsed(stored: Option<seq<Turn>>): seq<Turn> {
    stored.GetOr([])
  }

  /** The history get_conversation_history returns: the session's parsed
      history when the session belongs to `ip`, otherwise []. */
  function HistoryOf(sessions: map<string, Session>, ip: string, sid: string): seq<Turn> {
    if sid in sessions && sessions[sid].ipAddress == ip then Parsed(sessions[sid].history) else []
  }

  /** The user/assistant pair one turn adds. */
  function NewTurn(message: string, response: string, now: int): seq<Turn> {
    [Turn("user", message, now), Turn("assistant", response, now)]
  }

  /** The history save_conversation writes back for an existing session: the
      old history and the new pair, cut to its last HISTORY_CAP messages. */
  function Extended(history: seq<Turn>, message: string, response: string, now: int): (h: seq<Turn>)
    ensures |h| == Min(|history| + 2, HISTORY_CAP)
    ensures h[|h| - 2..] == NewTurn(message, response, now)
    ensures h == (history + NewTurn(message, response, now))[|history| + 2 - |h|..]
  {
    var full := history + NewTurn(message, response, now);
    if |full| > HISTORY_CAP then full[|full| - HISTORY_CAP..] else full
  }

  /** The session table after save_conversation, or None when the call fails:
      the session id is held by another address, so the lookup by (address,
      id) finds nothing and the INSERT of a new session violates the primary
      key; the connection then rolls the whole transaction back. */
  function SavedSessions(sessions: map<string, Session>, ip: string, sid: string,
                         message: string, response: string, now: int): (r: Option<map<string, Session>>)
    ensures r.None? <==> sid in sessions && sessions[sid].ipAddress != ip
    ensures r.Some? ==> sid in r.value && r.value[sid].ipAddress == ip && r.value[sid].lastActivity == now
    // Reading the session back gives what was read before, extended by the new pair.
    ensures r.Some? ==> HistoryOf(r.value, ip, sid) == Extended(HistoryOf(sessions, ip, sid), message, response, now)
    // Every other session is left as it was.
    ensures r.Some? ==> forall other :: other != sid ==>
      (other in r.value <==> other in sessions) && (other in sessions ==> r.value[other] == sessions[other])
  {
    if sid in sessions && sessions[sid].ipAddress == ip then
      Some(sessions[sid := Session(ip, Some(Extended(Parsed(sessions[sid].history), message, response, now)), now)])
    else if sid in sessions then
      None
    else
      assert Extended([], message, response, now) == NewTurn(message, response, now);
      Some(sessions[sid := Session(ip, Some(NewTurn(message, response, now)), now)])
  }

  /** A new session starts with exactly the user message and the reply; so
      does a session whose stored history cannot be parsed. */
  lemma FirstTurnStartsHistory(sessions: map<string, Session>, ip: string, sid: string,
                               message: string, response: string, now: int)
    requires sid !in sessions || sessions[sid] == Session(ip, None, sessions[sid].lastActivity)
    ensures HistoryOf(sessions, ip, sid) == []
    ensures SavedSessions(sessions, ip, sid, message, response, now).Some?
    ensures HistoryOf(SavedSessions(sessions, ip, sid, message, response, now).value, ip, sid)
      == [Turn("user", message, now), Turn("assistant", response, now)]
  {
  }

  /** After any number of saves a history holds at most HISTORY_CAP messages
      and ends with the latest pair. */
  lemma {:induction false} HistoryStaysCapped(history: seq<Turn>, message: string, response: string, now: int)
    requires |history| <= HISTORY_CAP
    ensures var h := Extended(history, message, response, now);
      |h| <= HISTORY_CAP && h[|h| - 1] == Turn("assistant", response, now) && h[|h| - 2] == Turn("user", message, now)
  {
    var h := Extended(history, message, response, now);
    assert h[|h| - 2..][0] == h[|h| - 2] && h[|h| - 2..][1] == h[|h| - 1];
  }

  /** The sessions cleanup_old_sessions keeps: exactly those active at or after `cutoff`. */
  function RecentSessions(sessions: map<string, Session>, cutoff: int): (r: map<string, Session>)
    ensures forall sid :: sid in r <==> sid in sessions && sessions[sid].lastActivity >= cutoff
    ensures forall sid :: sid in r ==> r[sid] == sessions[sid]
  {
    map sid | sid in sessions && sessions[sid].lastActivity >= cutoff :: sessions[sid]
  }

  /** The chat records cleanup_old_sessions keeps: exactly those created at or
      after `cutoff`, in their original order. */
  function RecentRecords(log: seq<ChatRecord>, cutoff: int): (r: seq<ChatRecord>)
    ensures |r| <= |log|
    ensures forall x :: x in r <==> x in log && x.createdAt >= cutoff
  {
    if log == [] then []
    else (if log[0].createdAt >= cutoff then [log[0]] else []) + RecentRecords(log[1..], cutoff)
  }

  /** Every recent record is kept as many times as the log holds it, every
      old one is dropped. */
  lemma {:induction false} RecentRecordsCount(log: seq<ChatRecord>, cutoff: int, x: ChatRecord)
    ensures multiset(RecentRecords(log, cutoff))[x] == if x.createdAt >= cutoff then multiset(log)[x] else 0
  {
    if log != [] {
      assert log == [log[0]] + log[1..];
      RecentRecordsCount(log[1..], cutoff, x);
    }
  }

  /** The cleanup filters the log record by record, so it keeps the records'
      order: filtering two stretches of the log and joining them is filtering
      the whole. */
  lemma {:induction false} RecentRecordsConcat(a: seq<ChatRecord>, b: seq<ChatRecord>, cutoff: int)
    ensures RecentRecords(a + b, cutoff) == RecentRecords(a, cutoff) + RecentRecords(b, cutoff)
  {
    if a == [] {
      assert a + b == b;
    } else {
      assert (a + b)[1..] == a[1..] + b;
      RecentRecordsConcat(a[1..], b, cutoff);
    }
  }

  /** Every parsed history in the table holds at most HISTORY_CAP messages. */
  predicate Capped(sessions: map<string, Session>) {
    forall sid :: sid in sessions && sessions[sid].history.Some? ==> |sessions[sid].history.value| <= HISTORY_CAP
  }

  /** Storing one session whose history is within the cap keeps the whole table within it. */
  lemma KeepsCap(sessions: map<string, Session>, sid: string, s: Session)
    requires Capped(sessions)
    requires s.history.Some? ==> |s.history.value| <= HISTORY_CAP
    ensures Capped(sessions[sid := s])
  {
    var after := sessions[sid := s];
    forall k | k in after && after[k].history.Some?
      ensures |after[k].history.value| <= HISTORY_CAP
    {
      if k != sid {
        assert after[k] == sessions[k];
      }
    }
  }

  // ---------------------------------------------------------------------------
  // The database object

  class Database {
    /** `rate_limits`, keyed by ip_address. */
    var rateLimits: map<string, RateRow>
    /** `conversation_sessions`, keyed by session_id. */
    var sessions: map<string, Session>
    /** `chat_history`, in insertion order. */
    var chatHistory: seq<ChatRecord>

    /** Opening a database file: CREATE TABLE IF NOT EXISTS keeps the rows
        the file already holds (none for a new file). */
    constructor (rateLimits: map<string, RateRow>, sessions: map<string, Session>, chatHistory: seq<ChatRecord>)
      ensures this.rateLimits == rateLimits && this.sessions == sessions && this.chatHistory == chatHistory
    {
      this.rateLimits := rateLimits;
      this.sessions := sessions;
      this.chatHistory := chatHistory;
    }

    /** The invariant check_rate_limit keeps for a positive limit. */
    ghost predicate CountersWithin(limit: int)
      reads this
    {
      forall ip :: ip in rateLimits ==> 1 <= rateLimits[ip].requestCount <= limit
    }

    /** The invariant save_conversation keeps: parsed histories hold at most HISTORY_CAP messages. */
    ghost predicate HistoriesCapped()
      reads this
    {
      Capped(sessions)
    }

    method CheckRateLimit(ip: string, now: int, limit: int) returns (allowed: bool, remaining: int)
      modifies this
      ensures var a := Admit(Lookup(old(rateLimits), ip), now, limit);
        allowed == a.allowed && remaining == a.remaining && rateLimits == old(rateLimits)[ip := a.row]
      ensures forall other :: other != ip ==>
        (other in rateLimits <==> other in old(rateLimits)) && (other in rateLimits ==> rateLimits[other] == old(rateLimits)[other])
      ensures sessions == old(sessions) && chatHistory == old(chatHistory)
      ensures 1 <= limit && old(CountersWithin(limit)) ==> CountersWithin(limit)
    {
      if ip !in rateLimits {
        rateLimits := rateLimits[ip := RateRow(1, now)];
        return true, limit - 1;
      }
      var row := rateLimits[ip];
      if now - row.lastReset >= HOUR {
        rateLimits := rateLimits[ip := RateRow(1, now)];
        return true, limit - 1;
      }
      if row.requestCount >= limit {
        assert rateLimits[ip := row] == rateLimits;
        return false, 0;
      }
      rateLimits := rateLimits[ip := RateRow(row.requestCount + 1, row.lastReset)];
      return true, limit - (row.requestCount + 1);
    }

    method GetConversationHistory(ip: string, sid: string) returns (history: seq<Turn>)
      ensures history == HistoryOf(sessions, ip, sid)
    {
      if sid in sessions && sessions[sid].ipAddress == ip {
        var stored := sessions[sid].history;
        if stored.Some? {
          return stored.value;
        }
        return [];
      }
      return [];
    }

    method SaveConversation(ip: string, sid: string, message: string, response: string, now: int) returns (saved: bool)
      modifies this
      ensures var r := SavedSessions(old(sessions), ip, sid, message, response, now);
        saved == r.Some? && (saved ==> sessions == r.value)
      ensures saved ==> chatHistory == old(chatHistory) + [ChatRecord(ip, sid, message, response, now)]
      ensures !saved ==> sessions == old(sessions) && chatHistory == old(chatHistory)
      ensures rateLimits == old(rateLimits)
      ensures old(HistoriesCapped()) ==> HistoriesCapped()
    {
      var record := ChatRecord(ip, sid, message, response, now);
      ghost var wasCapped := HistoriesCapped();
      if sid in sessions && sessions[sid].ipAddress == ip {
        var history := AppendTurn(Parsed(sessions[sid].history), message, response, now);
        if wasCapped {
          KeepsCap(sessions, sid, Session(ip, Some(history), now));
        }
        sessions := sessions[sid := Session(ip, Some(history), now)];
        chatHistory := chatHistory + [record];
        saved := true;
      } else if sid in sessions {
        saved := false;
      } else {
        var history := [Turn("user", message, now), Turn("assistant", response, now)];
        if wasCapped {
          KeepsCap(sessions, sid, Session(ip, Some(history), now));
        }
        sessions := sessions[sid := Session(ip, Some(history), now)];
        chatHistory := chatHistory + [record];
        saved := true;
      }
    }

    /** The list updates save_conversation makes on a stored history: append
        the user message and the reply, then keep the last HISTORY_CAP. */
    static method AppendTurn(history: seq<Turn>, message: string, response: string, now: int) returns (h: seq<Turn>)
      ensures h == Extended(history, message, response, now)
    {
      h := history + [Turn("user", message, now)];
      h := h + [Turn("assistant", response, now)];
      assert h == history + NewTurn(message, response, now);
      if |h| > HISTORY_CAP {
        h := h[|h| - HISTORY_CAP..];
      }
    }

    method CleanupOldSessions(now: int, days: int)
      modifies this
      ensures sessions == RecentSessions(old(sessions), now - days * DAY)
      ensures chatHistory == RecentRecords(old(chatHistory), now - days * DAY)
      ensures rateLimits == old(rateLimits)
      ensures old(HistoriesCapped()) ==> HistoriesCapped()
      ensures forall limit :: old(CountersWithin(limit)) ==> CountersWithin(limit)
    {
      var cutoff := now - days * DAY;
      var keptSessions := RecentSessions(sessions, cutoff);
      var keptRecords := RecentRecords(chatHistory, cutoff);
      sessions, chatHistory := keptSessions, keptRecords;
    }

    method GetRateLimitInfo(ip: string, now: int) returns (info: RateInfo)
      ensures info == InfoOf(Lookup(rateLimits, ip), now)
    {
      if ip !in rateLimits {
        return RateInfo(0, None, 0);
      }
      var row := rateLimits[ip];
      var nextReset := row.lastReset + HOUR;
      info := RateInfo(row.requestCount, Some(nextReset), Max(0, nextReset - now));
    }

    /** clear_rate_limits.py: delete every rate-limit row and report how many there were. */
    method ClearRateLimits() returns (deleted: nat)
      modifies this
      ensures rateLimits == map[] && deleted == |old(rateLimits)|
      ensures sessions == old(sessions) && chatHistory == old(chatHistory)
      ensures CountersWithin(DEFAULT_LIMIT)
    {
      deleted := |rateLimits|;
      rateLimits := map[];
    }
  }
}
