/** The attendance composable: the state derived from one user's records of
    the day (latest clock-in and clock-out, whether either action is
    available), the clock-in/clock-out writes, and the record subscription.

    The attendance store is modelled as the sequence of all records in the
    order they were written. Server timestamps are assumed to grow with write
    order, so the day's query "this user, this day, newest first" is the
    matching records of the store in reverse write order. */
module Attendance {
  import opened Prelude
  import opened Types

  const ClockInFailedMessage: string := "出勤記録に失敗しました"
  const ClockOutFailedMessage: string := "退勤記録に失敗しました"
  const FetchFailedMessage: string := "勤怠記録の取得に失敗しました"
  const NoTime: string := "--:--"

  // ---------------------------------------------------------------------
  // Derived state over the day's records (newest first)
  // ---------------------------------------------------------------------

  /** Number of records of the given kind. */
  function {:induction false} CountOf(rs: seq<AttendanceRecord>, t: RecordType): (n: nat)
    ensures n <= |rs|
    ensures n == 0 <==> forall i | 0 <= i < |rs| :: rs[i].kind != t
    decreases |rs|
  {
    if |rs| == 0 then 0
    else (if rs[0].kind == t then 1 else 0) + CountOf(rs[1..], t)
  }

  /** `records.find(r => r.type === t)`: the first record of the given kind. */
  function {:induction false} FindFirst(rs: seq<AttendanceRecord>, t: RecordType): (r: Option<AttendanceRecord>)
    ensures r.None? <==> forall i | 0 <= i < |rs| :: rs[i].kind != t
    ensures r.Some? ==> exists i | 0 <= i < |rs| ::
      && rs[i] == r.value
      && rs[i].kind == t
      && forall j | 0 <= j < i :: rs[j].kind != t
    decreases |rs|
  {
    if |rs| == 0 then None
    else if rs[0].kind == t then Some(rs[0])
    else
      var r := FindFirst(rs[1..], t);
      assert r.Some? ==> exists i | 0 <= i < |rs[1..]| ::
        && rs[1..][i] == r.value && rs[1..][i].kind == t
        && forall j | 0 <= j < i :: rs[1..][j].kind != t;
      assert r.Some? ==> exists i | 0 <= i < |rs| ::
        && rs[i] == r.value && rs[i].kind == t
        && forall j | 0 <= j < i :: rs[j].kind != t
      by {
        if r.Some? {
          var i :| 0 <= i < |rs[1..]| && rs[1..][i] == r.value && rs[1..][i].kind == t
            && forall j | 0 <= j < i :: rs[1..][j].kind != t;
          assert rs[i + 1] == r.value && rs[i + 1].kind == t;
          assert forall j | 0 <= j < i + 1 :: rs[j].kind != t by {
            forall j | 0 <= j < i + 1 ensures rs[j].kind != t {
              if j > 0 { assert rs[j] == rs[1..][j - 1]; }
            }
          }
        }
      }
      r
  }

  /** The most recent clock-in of the day, if any: the first clock-in of the
      newest-first list. */
  function LastClockIn(rs: seq<AttendanceRecord>): (r: Option<AttendanceRecord>)
    ensures r.Some? ==> r.value in rs && r.value.kind == ClockIn
    ensures r.Some? ==> exists i | 0 <= i < |rs| ::
      rs[i] == r.value && forall j | 0 <= j < i :: rs[j].kind != ClockIn
    ensures r.Some? && rs != [] && rs[0].kind == ClockIn ==> r.value == rs[0]
    ensures r.None? <==> forall i | 0 <= i < |rs| :: rs[i].kind != ClockIn
  {
    FindFirst(rs, ClockIn)
  }

  /** The most recent clock-out of the day, if any. */
  function LastClockOut(rs: seq<AttendanceRecord>): (r: Option<AttendanceRecord>)
    ensures r.Some? ==> r.value in rs && r.value.kind == ClockOut
    ensures r.Some? ==> exists i | 0 <= i < |rs| ::
      rs[i] == r.value && forall j | 0 <= j < i :: rs[j].kind != ClockOut
    ensures r.Some? && rs != [] && rs[0].kind == ClockOut ==> r.value == rs[0]
    ensures r.None? <==> forall i | 0 <= i < |rs| :: rs[i].kind != ClockOut
  {
    FindFirst(rs, ClockOut)
  }

  /** Clocking in is offered only before the first clock-in of the day, that
      is, exactly when no latest clock-in is shown. */
  predicate CanClockIn(rs: seq<AttendanceRecord>)
    ensures CanClockIn(rs) <==> LastClockIn(rs).None?
  {
    CountOf(rs, ClockIn) == 0
  }

  /** Clocking out is offered only after exactly one clock-in and before any
      clock-out; then a latest clock-in and no latest clock-out are shown. */
  predicate CanClockOut(rs: seq<AttendanceRecord>)
    ensures CanClockOut(rs) ==> LastClockIn(rs).Some? && LastClockOut(rs).None?
  {
    CountOf(rs, ClockIn) == 1 && CountOf(rs, ClockOut) == 0
  }

  /** The record at index `i` is the only one of the given kind. */
  ghost predicate OnlyAt(rs: seq<AttendanceRecord>, t: RecordType, i: int) {
    && 0 <= i < |rs| && rs[i].kind == t
    && forall j | 0 <= j < |rs| && j != i :: rs[j].kind != t
  }

  /** Exactly one record of the given kind. */
  ghost predicate ExactlyOne(rs: seq<AttendanceRecord>, t: RecordType) {
    exists i :: OnlyAt(rs, t, i)
  }

  /** No record of the given kind. */
  ghost predicate NoneOf(rs: seq<AttendanceRecord>, t: RecordType) {
    forall i | 0 <= i < |rs| :: rs[i].kind != t
  }

  lemma {:induction false} OnlyAtCountsOne(rs: seq<AttendanceRecord>, t: RecordType, i: int)
    requires OnlyAt(rs, t, i)
    ensures CountOf(rs, t) == 1
    decreases |rs|
  {
    var tail := rs[1..];
    if i == 0 {
      assert forall k | 0 <= k < |tail| :: tail[k].kind != t by {
        forall k | 0 <= k < |tail| ensures tail[k].kind != t {
          assert tail[k] == rs[k + 1];
        }
      }
    } else {
      assert OnlyAt(tail, t, i - 1) by {
        forall k | 0 <= k < |tail| && k != i - 1 ensures tail[k].kind != t {
          assert tail[k] == rs[k + 1];
        }
      }
      OnlyAtCountsOne(tail, t, i - 1);
    }
  }

  lemma {:induction false} CountOneHasWitness(rs: seq<AttendanceRecord>, t: RecordType)
    requires CountOf(rs, t) == 1
    ensures ExactlyOne(rs, t)
    decreases |rs|
  {
    var tail := rs[1..];
    if rs[0].kind == t {
      assert CountOf(tail, t) == 0;
      assert OnlyAt(rs, t, 0) by {
        forall j | 0 <= j < |rs| && j != 0 ensures rs[j].kind != t {
          assert rs[j] == tail[j - 1];
        }
      }
    } else {
      CountOneHasWitness(tail, t);
      var i :| OnlyAt(tail, t, i);
      assert OnlyAt(rs, t, i + 1) by {
        forall j | 0 <= j < |rs| && j != i + 1 ensures rs[j].kind != t {
          if j > 0 { assert rs[j] == tail[j - 1]; }
        }
      }
    }
  }

  /** A count of one means exactly one record of that kind. */
  lemma CountOneIffExactlyOne(rs: seq<AttendanceRecord>, t: RecordType)
    ensures CountOf(rs, t) == 1 <==> ExactlyOne(rs, t)
  {
    if CountOf(rs, t) == 1 {
      CountOneHasWitness(rs, t);
    }
    if ExactlyOne(rs, t) {
      var i :| OnlyAt(rs, t, i);
      OnlyAtCountsOne(rs, t, i);
    }
  }

  /** Clock-in is available exactly when the day holds no clock-in. */
  lemma CanClockInIff(rs: seq<AttendanceRecord>)
    ensures CanClockIn(rs) <==> NoneOf(rs, ClockIn)
  {
  }

  /** Clock-out is available exactly when the day holds one clock-in and no
      clock-out. */
  lemma CanClockOutIff(rs: seq<AttendanceRecord>)
    ensures CanClockOut(rs) <==> ExactlyOne(rs, ClockIn) && NoneOf(rs, ClockOut)
  {
    CountOneIffExactlyOne(rs, ClockIn);
  }

  /** The two actions are never offered together, and a day with two or more
      clock-ins offers neither. */
  lemma GatesExclusive(rs: seq<AttendanceRecord>)
    ensures !(CanClockIn(rs) && CanClockOut(rs))
    ensures CountOf(rs, ClockIn) >= 2 ==> !CanClockIn(rs) && !CanClockOut(rs)
  {
  }

  // ---------------------------------------------------------------------
  // The store and the day's query
  // ---------------------------------------------------------------------

  /** The record belongs to the given user's given day. */
  predicate OnDay(r: AttendanceRecord, userId: string, date: string) {
    r.userId == userId && r.date == date
  }

  /** The day's query over the store: the user's records of that day,
      newest first. */
  function {:induction false} TodayView(db: seq<AttendanceRecord>, userId: string, date: string): (v: seq<AttendanceRecord>)
    ensures |v| <= |db|
    ensures forall i | 0 <= i < |v| :: OnDay(v[i], userId, date)
    ensures forall r :: r in v <==> r in db && OnDay(r, userId, date)
    decreases |db|
  {
    if |db| == 0 then []
    else
      var last := db[|db| - 1];
      var rest := db[..|db| - 1];
      assert db == rest + [last];
      (if OnDay(last, userId, date) then [last] else []) + TodayView(rest, userId, date)
  }

  /** A new write shows up at the head of the day's query when it belongs to
      that day, and leaves the query alone otherwise. */
  lemma ViewAfterWrite(db: seq<AttendanceRecord>, r: AttendanceRecord, userId: string, date: string)
    ensures OnDay(r, userId, date) ==> TodayView(db + [r], userId, date) == [r] + TodayView(db, userId, date)
    ensures !OnDay(r, userId, date) ==> TodayView(db + [r], userId, date) == TodayView(db, userId, date)
  {
  }

  // ---------------------------------------------------------------------
  // The composable's state and actions
  // ---------------------------------------------------------------------

  /** The composable's detach handle: none held, or the handle of one
      listener, which may still be running or may have been ended by the
      store after reporting an error. */
  datatype Handle = NoHandle | Held(running: bool)

  /** One attendance composable: bound to a user and to the day key computed
      on first use, holding the last delivered snapshot, the action flags,
      the detach handle and the number of `leaked` listeners, which still
      run but which no handle can stop any more: attaching again overwrites
      the handle without detaching the listener it belonged to. */
  datatype Tracker = Tracker(
    userId: string,
    userName: string,
    today: string,
    todayRecords: seq<AttendanceRecord>,
    loading: bool,
    error: Option<string>,
    handle: Handle,
    leaked: nat)

  /** Number of record listeners of the composable still running. */
  function Running(t: Tracker): nat {
    (if t.handle == Held(true) then 1 else 0) + t.leaked
  }

  /** A new composable; the day key is derived from the clock's ISO string
      at creation. */
  function NewTracker(userId: string, userName: string, iso: string): (t: Tracker)
    ensures t.userId == userId && t.userName == userName
    ensures IsIsoInstant(iso) ==> t.today == iso[..10] && IsDateKey(t.today)
    ensures t.todayRecords == [] && !t.loading && t.error.None?
    ensures t.handle.NoHandle? && Running(t) == 0
  {
    Tracker(userId, userName, TodayKey(iso), [], false, None, NoHandle, 0)
  }

  /** How the store answered a record write: the document was created with a
      fresh id and a server timestamp, or the write failed. */
  datatype WriteOutcome = Written(id: string, serverTime: Timestamp) | WriteFailed(code: string)

  /** The state of the composable and of the store after an action, and how
      the action ended. */
  datatype Step = Step(tracker: Tracker, db: seq<AttendanceRecord>, completion: Completion<()>)

  function FailureMessage(kind: RecordType): string {
    match kind
    case ClockIn => ClockInFailedMessage
    case ClockOut => ClockOutFailedMessage
  }

  /** The shared body of `clockIn` and `clockOut`: write one record of the
      given kind. The availability gates are not consulted. */
  function AddRecord(t: Tracker, db: seq<AttendanceRecord>, kind: RecordType, loc: Location, outcome: WriteOutcome): (s: Step)
    ensures !s.tracker.loading
    ensures s.tracker.todayRecords == t.todayRecords
    ensures s.tracker.handle == t.handle && s.tracker.leaked == t.leaked
    ensures s.tracker.userId == t.userId && s.tracker.userName == t.userName && s.tracker.today == t.today
    ensures outcome.Written? ==>
      && |s.db| == |db| + 1 && s.db[..|db|] == db
      && s.db[|db|].kind == kind
      && s.db[|db|].userId == t.userId && s.db[|db|].userName == t.userName
      && s.db[|db|].location == loc && s.db[|db|].date == t.today
      && s.db[|db|].id == outcome.id && s.db[|db|].timestamp == Some(outcome.serverTime)
      && s.tracker.error.None?
      && s.completion == Returned(())
    ensures outcome.WriteFailed? ==>
      && s.db == db
      && s.tracker.error == Some(FailureMessage(kind))
      && s.completion == Threw(outcome.code)
  {
    // `loading` is raised and `error` cleared on entry; `loading` is lowered
    // again on both paths.
    var entered := t.(loading := true, error := None);
    match outcome
    case Written(id, time) =>
      var r := AttendanceRecord(id, t.userId, t.userName, kind, Some(time), loc, t.today);
      Step(entered.(loading := false), db + [r], Returned(()))
    case WriteFailed(code) =>
      Step(entered.(loading := false, error := Some(FailureMessage(kind))), db, Threw(code))
  }

  /** `clockIn`: one clock-in record of this user's day is appended after
      the existing ones and the error is cleared, or the store is left alone,
      the clock-in message is shown and the error is rethrown. */
  function ClockInAction(t: Tracker, db: seq<AttendanceRecord>, loc: Location, outcome: WriteOutcome): (s: Step)
    ensures outcome.Written? ==>
      && s.db == db + [AttendanceRecord(outcome.id, t.userId, t.userName, ClockIn, Some(outcome.serverTime), loc, t.today)]
      && s.tracker == t.(loading := false, error := None)
      && s.completion == Returned(())
    ensures outcome.WriteFailed? ==>
      && s.db == db
      && s.tracker == t.(loading := false, error := Some(ClockInFailedMessage))
      && s.completion == Threw(outcome.code)
  {
    AddRecord(t, db, ClockIn, loc, outcome)
  }

  /** `clockOut`: as `clockIn`, with a clock-out record and the clock-out
      message. */
  function ClockOutAction(t: Tracker, db: seq<AttendanceRecord>, loc: Location, outcome: WriteOutcome): (s: Step)
    ensures outcome.Written? ==>
      && s.db == db + [AttendanceRecord(outcome.id, t.userId, t.userName, ClockOut, Some(outcome.serverTime), loc, t.today)]
      && s.tracker == t.(loading := false, error := None)
      && s.completion == Returned(())
    ensures outcome.WriteFailed? ==>
      && s.db == db
      && s.tracker == t.(loading := false, error := Some(ClockOutFailedMessage))
      && s.completion == Threw(outcome.code)
  {
    AddRecord(t, db, ClockOut, loc, outcome)
  }

  /** `subscribeToTodayRecords`: start one more record listener and keep
      its handle. A handle already held is overwritten, so the listener it
      belonged to, if still running, keeps running and can no longer be
      detached. */
  function Subscribe(t: Tracker): (t': Tracker)
    ensures t'.handle == Held(true) && Running(t') == Running(t) + 1
    ensures t'.leaked == t.leaked + (if t.handle == Held(true) then 1 else 0)
    ensures t' == t.(handle := t'.handle, leaked := t'.leaked)
  {
    t.(handle := Held(true), leaked := t.leaked + if t.handle == Held(true) then 1 else 0)
  }

  /** Once a listener is running, the next snapshot brings the composable
      in line with the store, whatever it showed before. */
  lemma SubscribeThenDeliverSyncs(t: Tracker, db: seq<AttendanceRecord>)
    ensures InSync(DeliverSnapshot(Subscribe(t), db), db)
    ensures DeliverSnapshot(Subscribe(t), db).error == t.error
  {
  }

  /** A snapshot of the store reaches the composable: while any listener
      runs, the day's records become the day's query over the store and
      nothing else changes. All listeners of one composable run the same
      query, so it does not matter which one delivers. */
  function DeliverSnapshot(t: Tracker, db: seq<AttendanceRecord>): (t': Tracker)
    ensures Running(t) > 0 ==> t' == t.(todayRecords := TodayView(db, t.userId, t.today))
    ensures Running(t) == 0 ==> t' == t
  {
    if Running(t) > 0 then t.(todayRecords := TodayView(db, t.userId, t.today)) else t
  }

  /** Which running listener reports a read failure: the one whose handle
      is held, or one of the leaked ones. */
  datatype ErrorSource = FromHandled | FromLeaked

  /** A running listener reports a read failure: the fetch failure message
      is shown, and the store ends that listener. A held handle outlives
      its listener; calling it later does nothing more. When no listener of
      the given source runs, nothing happens. */
  function DeliverSnapshotError(t: Tracker, source: ErrorSource): (t': Tracker)
    ensures source.FromHandled? && t.handle == Held(true) ==>
      t' == t.(error := Some(FetchFailedMessage), handle := Held(false))
    ensures source.FromLeaked? && t.leaked > 0 ==>
      t' == t.(error := Some(FetchFailedMessage), leaked := t.leaked - 1)
    ensures !(source.FromHandled? && t.handle == Held(true)) && !(source.FromLeaked? && t.leaked > 0) ==> t' == t
    ensures t' != t ==> Running(t') == Running(t) - 1
  {
    match source
    case FromHandled =>
      if t.handle == Held(true) then t.(error := Some(FetchFailedMessage), handle := Held(false)) else t
    case FromLeaked =>
      if t.leaked > 0 then t.(error := Some(FetchFailedMessage), leaked := t.leaked - 1) else t
  }

  /** `unsubscribeFromRecords`: when a handle is held, call it, which stops
      its listener if that still runs, and drop it; `detached` tells whether
      a handle was called. Leaked listeners are untouched. */
  function Unsubscribe(t: Tracker): (r: (Tracker, bool))
    ensures r.0.handle.NoHandle? && r.0.leaked == t.leaked
    ensures r.1 == t.handle.Held?
    ensures r.0 == t.(handle := NoHandle)
    ensures Running(r.0) == t.leaked
  {
    if t.handle.Held? then (t.(handle := NoHandle), true) else (t, false)
  }

  /** Detaching twice is the same as detaching once, and the second call
      invokes no handle. */
  lemma UnsubscribeIdempotent(t: Tracker)
    ensures Unsubscribe(Unsubscribe(t).0) == (Unsubscribe(t).0, false)
  {
  }

  /** Subscribing once and detaching stops all delivery. */
  lemma SubscribeOnceThenDetachStops(t: Tracker, db: seq<AttendanceRecord>, source: ErrorSource)
    requires Running(t) == 0
    ensures var t' := Unsubscribe(Subscribe(t)).0;
      && Running(t') == 0
      && DeliverSnapshot(t', db) == t'
      && DeliverSnapshotError(t', source) == t'
  {
  }

  /** Subscribing twice leaks the first listener: after a detach no handle
      is held, yet snapshots still reach the composable, and further detach
      calls can never stop them. */
  lemma DoubleSubscribeLeaks(t: Tracker, db: seq<AttendanceRecord>)
    requires Running(t) == 0
    ensures var t' := Unsubscribe(Subscribe(Subscribe(t))).0;
      && t'.handle.NoHandle? && Running(t') == 1
      && DeliverSnapshot(t', db).todayRecords == TodayView(db, t.userId, t.today)
      && Unsubscribe(t') == (t', false)
  {
  }

  /** A read failure ends the only listener: the message is shown, later
      snapshots no longer arrive, and the handle is still held, so a detach
      still calls it. */
  lemma ErrorEndsListener(t: Tracker, db: seq<AttendanceRecord>)
    requires Running(t) == 0
    ensures var t' := DeliverSnapshotError(Subscribe(t), FromHandled);
      && t'.error == Some(FetchFailedMessage)
      && Running(t') == 0
      && DeliverSnapshot(t', db) == t'
      && Unsubscribe(t') == (t'.(handle := NoHandle), true)
  {
  }

  /** Render a record time; the locale formatting of a present timestamp is
      supplied by the caller. */
  function FormatTime(ts: Option<Timestamp>, render: Timestamp -> string): (s: string)
    ensures ts.None? ==> s == NoTime
    ensures ts.Some? ==> s == render(ts.value)
  {
    match ts
    case None => NoTime
    case Some(v) => render(v)
  }

  // ---------------------------------------------------------------------
  // The day's life cycle
  // ---------------------------------------------------------------------

  /** The composable shows the current state of the store. */
  predicate InSync(t: Tracker, db: seq<AttendanceRecord>) {
    Running(t) > 0 && t.todayRecords == TodayView(db, t.userId, t.today)
  }

  /** A clock-in on a day with no record yet, once delivered, becomes the
      latest clock-in and turns the clock-in offer into a clock-out offer. */
  lemma ClockInEnablesClockOut(t: Tracker, db: seq<AttendanceRecord>, loc: Location, id: string, time: Timestamp)
    requires InSync(t, db) && CanClockIn(t.todayRecords) && LastClockOut(t.todayRecords).None?
    ensures var s := ClockInAction(t, db, loc, Written(id, time));
      var t' := DeliverSnapshot(s.tracker, s.db);
      && InSync(t', s.db)
      && LastClockIn(t'.todayRecords) == Some(s.db[|db|])
      && CanClockOut(t'.todayRecords) && !CanClockIn(t'.todayRecords)
      && LastClockOut(t'.todayRecords) == LastClockOut(t.todayRecords)
  {
  }

  /** A clock-out after the day's single clock-in, once delivered, becomes
      the latest clock-out, keeps the clock-in, and closes both offers. */
  lemma ClockOutClosesDay(t: Tracker, db: seq<AttendanceRecord>, loc: Location, id: string, time: Timestamp)
    requires InSync(t, db) && CanClockOut(t.todayRecords)
    ensures var s := ClockOutAction(t, db, loc, Written(id, time));
      var t' := DeliverSnapshot(s.tracker, s.db);
      && InSync(t', s.db)
      && LastClockOut(t'.todayRecords) == Some(s.db[|db|])
      && LastClockIn(t'.todayRecords) == LastClockIn(t.todayRecords)
      && !CanClockIn(t'.todayRecords) && !CanClockOut(t'.todayRecords)
  {
  }

  /** The actions do not consult the gates: a second clock-in on a day that
      already has one is written, and once delivered the day offers
      neither action. */
  lemma DuplicateClockInClosesDay(t: Tracker, db: seq<AttendanceRecord>, loc: Location, id: string, time: Timestamp)
    requires InSync(t, db) && !CanClockIn(t.todayRecords)
    ensures var s := ClockInAction(t, db, loc, Written(id, time));
      var t' := DeliverSnapshot(s.tracker, s.db);
      && |s.db| == |db| + 1
      && CountOf(t'.todayRecords, ClockIn) >= 2
      && !CanClockIn(t'.todayRecords) && !CanClockOut(t'.todayRecords)
  {
  }
}
