/** `MockDB` of examples/exampleapp/db.go: a connected flag with `Connect`,
    `Close` and `Query`.  The timer/context `select` in `Connect` and `Query`
    is an input saying which case fired; the time `Query` returns is an input
    too. */
module MockDb {
  import opened Base

  datatype MockDB = MockDB(isConnected: bool)

  const NotConnectedText := "database not connected"

  /** Which `select` case fired: the timer, or the context with its error. */
  datatype Wake = TimerFired | ContextDone(err: Error)

  /** `NewMockDB()`. */
  function NewMockDB(): (db: MockDB)
    ensures !db.isConnected
  {
    MockDB(false)
  }

  /** `db.Connect(ctx)`: the timer connects; cancellation returns the
      context's error and leaves the state alone. */
  function Connect(db: MockDB, wake: Wake): (r: (MockDB, Option<Error>))
    ensures wake.TimerFired? ==> r == (MockDB(true), None)
    ensures wake.ContextDone? ==> r == (db, Some(wake.err))
  {
    match wake
    case TimerFired => (MockDB(true), None)
    case ContextDone(e) => (db, Some(e))
  }

  /** `db.Close()`: fails when not connected, disconnects otherwise. */
  function Close(db: MockDB): (r: (MockDB, Option<Error>))
    ensures !r.0.isConnected
    ensures r.1.None? <==> db.isConnected
    ensures r.1.Some? ==> r.1 == Some(Message(NotConnectedText)) && r.0 == db
  {
    if !db.isConnected then (db, Some(Message(NotConnectedText)))
    else (MockDB(false), None)
  }

  /** `db.Query(ctx, _)`: the time when connected and the timer fires; the
      context's error when connected and the context ends first; "database not
      connected" otherwise.  Never changes the state. */
  function Query(db: MockDB, wake: Wake, now: nat): (r: Result<nat>)
    ensures r.Ok? <==> db.isConnected && wake.TimerFired?
    ensures r.Ok? ==> r.value == now
    ensures !db.isConnected ==> r == Err(Message(NotConnectedText))
    ensures db.isConnected && wake.ContextDone? ==> r == Err(wake.err)
  {
    if !db.isConnected then Err(Message(NotConnectedText))
    else match wake
      case TimerFired => Ok(now)
      case ContextDone(e) => Err(e)
  }

  /** A call on the database. */
  datatype Call = ConnectCall(wake: Wake) | CloseCall | QueryCall(wake: Wake, now: nat)

  function Step(db: MockDB, c: Call): MockDB {
    match c
    case ConnectCall(w) => Connect(db, w).0
    case CloseCall => Close(db).0
    case QueryCall(_, _) => db
  }

  /** The state after a sequence of calls, first to last. */
  function Replay(db: MockDB, calls: seq<Call>): MockDB
    decreases |calls|
  {
    if calls == [] then db else Replay(Step(db, calls[0]), calls[1..])
  }

  /** Whether a call sets the flag: a successful connect sets it, a close
      clears it (a failing close leaves it cleared), others leave it alone. */
  function Sets(c: Call): Option<bool> {
    match c
    case ConnectCall(TimerFired) => Some(true)
    case CloseCall => Some(false)
    case _ => None
  }

  /** The value the last flag-setting call in `calls` gives, if any. */
  function LastSet(calls: seq<Call>): Option<bool>
    decreases |calls|
  {
    if calls == [] then None
    else match LastSet(calls[1..])
      case Some(b) => Some(b)
      case None => Sets(calls[0])
  }

  /** The database is connected after a sequence of calls exactly when the
      last connect-or-close among them was a connect whose timer fired, or,
      if there was none, when it was connected to begin with. */
  lemma {:induction false} ReplayFinalState(db: MockDB, calls: seq<Call>)
    ensures Replay(db, calls).isConnected
            == (match LastSet(calls) case Some(b) => b case None => db.isConnected)
    decreases |calls|
  {
    if calls != [] {
      ReplayFinalState(Step(db, calls[0]), calls[1..]);
    }
  }

  /** A fresh database refuses queries until it connects. */
  lemma FreshRefusesQueries(wake: Wake, now: nat)
    ensures Query(NewMockDB(), wake, now).Err?
    ensures Query(Connect(NewMockDB(), TimerFired).0, TimerFired, now) == Ok(now)
  {
  }
}
