/**
 The durable event store: many handlers load, decide and append at the same time, one database statement after another.

 A handler is a session.  It reads a stream, decides, and appends in a transaction that reads the head of the stream,
 inserts the events one by one under the primary key (stream, version), enqueues an outbox row with each, and commits.
 Statements of different sessions interleave in any order.  An insert that meets another session's uncommitted key waits,
 and one that meets a committed key violates the primary key.  Any session can die at any point.
 */
module PostgresEventStore {
  import opened Messages
  import opened EventStore

  /** What session number `t` records on top of the stream it has read. */
  type Handler = (nat, seq<Event>) -> seq<Event>

  datatype Key = Key(stream: StreamId, version: nat)

  datatype End = Saved | Conflict | Died

  /** `base` is the stream as the session's handler read it; a caller that brings its own version has none. */
  datatype Session =
    | Loaded(id: StreamId, history: seq<Event>)
    | Opened(id: StreamId, expected: nat, batch: seq<Event>, base: Option<seq<Event>>)
    | Writing(id: StreamId, expected: nat, batch: seq<Event>, base: Option<seq<Event>>, ids: seq<nat>)
    | Over(end: End)

  datatype Commit = Commit(session: nat, id: StreamId, expected: nat, batch: seq<Event>, base: Option<seq<Event>>)

  /**
   The committed tables, the outbox id sequence, the sessions, and two histories that nothing reads back: the commits in
   their order, and the outbox id under which each event was enqueued.
   */
  datatype Db = Db(events: map<Key, Event>, outbox: map<Key, nat>, nextId: nat, sessions: map<nat, Session>,
                   log: seq<Commit>, enqueued: map<Key, nat>)

  const EMPTY := Db(map[], map[], 1, map[], [], map[])

  datatype Action =
    | Load(t: nat, id: StreamId, versions: seq<nat>)
    | Decide(t: nat)
    | Call(t: nat, id: StreamId, expected: nat, batch: seq<Event>)
    | CheckHead(t: nat, head: nat)
    | Insert(t: nat)
    | Finish(t: nat)
    | Die(t: nat)

  /** The committed versions of a stream in ascending order. */
  ghost predicate Listing(events: map<Key, Event>, id: StreamId, versions: seq<nat>) {
    && (forall i, j | 0 <= i < j < |versions| :: versions[i] < versions[j])
    && (forall v: nat :: Key(id, v) in events <==> v in versions)
  }

  /** The largest committed version of a stream, or 0. */
  ghost predicate IsHead(events: map<Key, Event>, id: StreamId, head: nat) {
    && (head == 0 || Key(id, head) in events)
    && forall v: nat | Key(id, v) in events :: v <= head
  }

  function ReadOut(events: map<Key, Event>, id: StreamId, versions: seq<nat>): seq<Event>
    requires forall v | v in versions :: Key(id, v) in events
  {
    seq(|versions|, i requires 0 <= i < |versions| => events[Key(id, versions[i])])
  }

  function NewEvents(id: StreamId, expected: nat, batch: seq<Event>): (rows: map<Key, Event>)
    ensures forall k :: k in rows <==> k.stream == id && expected < k.version <= expected + |batch|
    ensures forall k | k in rows :: rows[k] == batch[k.version - expected - 1]
  {
    map v: nat | expected < v <= expected + |batch| :: Key(id, v) := batch[v - expected - 1]
  }

  function NewIds(id: StreamId, expected: nat, ids: seq<nat>): (rows: map<Key, nat>)
    ensures forall k :: k in rows <==> k.stream == id && expected < k.version <= expected + |ids|
    ensures forall k | k in rows :: rows[k] == ids[k.version - expected - 1]
  {
    map v: nat | expected < v <= expected + |ids| :: Key(id, v) := ids[v - expected - 1]
  }

  /** The session has inserted this key and not committed it. */
  predicate Holds(s: Session, k: Key) {
    s.Writing? && k.stream == s.id && s.expected < k.version <= s.expected + |s.ids|
  }

  /** Where the next insert of a writing session goes. */
  function Slot(s: Session): Key
    requires s.Writing?
  {
    Key(s.id, s.expected + |s.ids| + 1)
  }

  /** The state of the acting session after its statement. */
  ghost predicate SessionActs(h: Handler, db: Db, a: Action, s': Session) {
    match a
    case Load(t, id, versions) => t !in db.sessions && Listing(db.events, id, versions)
                                  && s' == Loaded(id, ReadOut(db.events, id, versions))
    case Call(t, id, expected, batch) => t !in db.sessions && batch != [] && s' == Opened(id, expected, batch, None)
    case Decide(t) =>
      && t in db.sessions && db.sessions[t].Loaded?
      && var s := db.sessions[t];
         h(t, s.history) != [] && s' == Opened(s.id, |s.history|, h(t, s.history), Some(s.history))
    case CheckHead(t, head) =>
      && t in db.sessions && db.sessions[t].Opened?
      && var s := db.sessions[t];
         && IsHead(db.events, s.id, head)
         && s' == if head == s.expected then Writing(s.id, s.expected, s.batch, s.base, []) else Over(Conflict)
    case Insert(t) =>
      && t in db.sessions && db.sessions[t].Writing? && |db.sessions[t].ids| < |db.sessions[t].batch|
      && var s := db.sessions[t];
         if Slot(s) in db.events then s' == Over(Conflict)
         else (forall u | u in db.sessions && u != t :: !Holds(db.sessions[u], Slot(s)))
              && s' == s.(ids := s.ids + [db.nextId])
    case Finish(t) =>
      t in db.sessions && db.sessions[t].Writing? && |db.sessions[t].ids| == |db.sessions[t].batch| && s' == Over(Saved)
    case Die(t) => t in db.sessions && !db.sessions[t].Over? && s' == Over(Died)
  }

  /** Session `t` commits, in state `s`. */
  ghost predicate Commits(db: Db, t: nat, s: Session, db': Db) {
    && t in db.sessions && db.sessions[t] == s && s.Writing? && |s.ids| == |s.batch|
    && db'.sessions == db.sessions[t := Over(Saved)] && db'.nextId == db.nextId
    && db'.events == db.events + NewEvents(s.id, s.expected, s.batch)
    && db'.outbox == db.outbox + NewIds(s.id, s.expected, s.ids)
    && db'.enqueued == db.enqueued + NewIds(s.id, s.expected, s.ids)
    && db'.log == db.log + [Commit(t, s.id, s.expected, s.batch, s.base)]
  }

  /** One statement of one session; only a commit changes what others can see. */
  ghost predicate Acts(h: Handler, db: Db, a: Action, db': Db) {
    exists s' :: ActsAs(h, db, a, s', db')
  }

  ghost predicate ActsAs(h: Handler, db: Db, a: Action, s': Session, db': Db) {
    && SessionActs(h, db, a, s')
    && db'.sessions == db.sessions[a.t := s']
    && db'.nextId == (if a.Insert? then db.nextId + 1 else db.nextId)
    && if a.Finish? then Commits(db, a.t, db.sessions[a.t], db')
       else
         db'.events == db.events && db'.outbox == db.outbox && db'.enqueued == db.enqueued && db'.log == db.log
  }

  /** The streams that the commits amount to, one after the other. */
  function Replay(log: seq<Commit>): Streams {
    if log == [] then map[]
    else
      var c := log[|log| - 1];
      Grow(Replay(log[..|log| - 1]), c.id, c.batch)
  }

  function StreamOf(db: Db, id: StreamId): seq<Event> {
    Stream(Replay(db.log), id)
  }

  lemma ReplaySnoc(log: seq<Commit>, c: Commit)
    ensures Replay(log + [c]) == Grow(Replay(log), c.id, c.batch)
  {
    assert (log + [c])[..|log|] == log;
  }

  // ---- the invariant ----

  /** The row of key `k`, if the stream `stream` is stored as versions 1, 2, 3, ... */
  predicate RowFits(events: map<Key, Event>, k: Key, stream: seq<Event>) {
    && (k in events <==> 1 <= k.version <= |stream|)
    && (k in events ==> events[k] == stream[k.version - 1])
  }

  /** The table holds exactly the versions 1 to n of each stream. */
  ghost predicate Contiguous(db: Db) {
    forall k: Key :: RowFits(db.events, k, StreamOf(db, k.stream))
  }

  /** What a handler read is still the beginning of the stream, and what it writes was decided on that. */
  predicate Based(h: Handler, t: nat, s: Session, stream: seq<Event>) {
    match s
    case Over(_) => true
    case Loaded(_, history) => history <= stream
    case _ => && s.batch != []
              && (s.base.Some? ==>
                    s.base.value <= stream && s.expected == |s.base.value| && s.batch == h(t, s.base.value))
  }

  /** A session that has inserted anything stands at the head of its stream, and its ids are newer than the stream's. */
  predicate Ahead(db: Db, s: Session) {
    s.Writing? ==>
      && |s.ids| <= |s.batch|
      && s.expected <= |StreamOf(db, s.id)|
      && (s.ids != [] ==> s.expected == |StreamOf(db, s.id)|)
      && (forall i | 0 <= i < |s.ids| :: s.ids[i] < db.nextId)
      && (forall i, j | 0 <= i < j < |s.ids| :: s.ids[i] < s.ids[j])
      && (forall i, k | 0 <= i < |s.ids| && k in db.enqueued && k.stream == s.id :: db.enqueued[k] < s.ids[i])
  }

  predicate Inserting(s: Session, id: StreamId) {
    s.Writing? && s.id == id && s.ids != []
  }

  predicate Fits(h: Handler, db: Db, t: nat, s: Session) {
    (s.Over? || Based(h, t, s, StreamOf(db, s.id))) && Ahead(db, s)
  }

  ghost predicate SessionsFit(h: Handler, db: Db) {
    forall t | t in db.sessions :: Fits(h, db, t, db.sessions[t])
  }

  /** At most one session at a time has uncommitted events on a stream. */
  ghost predicate OneWriter(db: Db) {
    forall t, u, id | t in db.sessions && u in db.sessions
                      && Inserting(db.sessions[t], id) && Inserting(db.sessions[u], id) :: t == u
  }

  /** Outbox ids follow the versions of each stream. */
  ghost predicate InOrder(enqueued: map<Key, nat>) {
    forall k, k' | k in enqueued && k' in enqueued && k.stream == k'.stream && k.version < k'.version ::
      enqueued[k] < enqueued[k']
  }

  ghost predicate Below(enqueued: map<Key, nat>, bound: nat) {
    forall k | k in enqueued :: enqueued[k] < bound
  }

  /** What is still in the outbox has the id it was enqueued with. */
  ghost predicate Waiting(outbox: map<Key, nat>, enqueued: map<Key, nat>) {
    forall k | k in outbox :: k in enqueued && outbox[k] == enqueued[k]
  }

  ghost predicate Enqueued(db: Db) {
    && (forall k :: k in db.enqueued <==> k in db.events)
    && Below(db.enqueued, db.nextId) && InOrder(db.enqueued) && Waiting(db.outbox, db.enqueued)
  }

  /** The commit appended to exactly what its handler had read. */
  predicate Serial(h: Handler, c: Commit, stream: seq<Event>) {
    && c.batch != [] && |stream| == c.expected
    && (c.base.Some? ==> c.base.value == stream && c.batch == h(c.session, stream))
  }

  ghost predicate LogSerial(h: Handler, log: seq<Commit>) {
    forall i | 0 <= i < |log| :: Serial(h, log[i], Stream(Replay(log[..i]), log[i].id))
  }

  ghost predicate Inv(h: Handler, db: Db) {
    Contiguous(db) && SessionsFit(h, db) && OneWriter(db) && Enqueued(db) && LogSerial(h, db.log)
  }

  // ---- each statement keeps it ----

  lemma ReadingIsTheStream(db: Db, id: StreamId, versions: seq<nat>)
    requires Contiguous(db) && Listing(db.events, id, versions)
    ensures ReadOut(db.events, id, versions) == StreamOf(db, id)
  {
    hide Replay, StreamOf;
    var n := |StreamOf(db, id)|;
    AscendingIsCounting(versions, n) by {
      forall v: nat ensures v in versions <==> 1 <= v <= n {
        assert RowFits(db.events, Key(id, v), StreamOf(db, id));
      }
    }
  }

  /** An ascending list of exactly the numbers 1 to n is the list 1, 2, ..., n. */
  lemma {:induction false} AscendingIsCounting(versions: seq<nat>, n: nat)
    requires forall i, j | 0 <= i < j < |versions| :: versions[i] < versions[j]
    requires forall v: nat :: v in versions <==> 1 <= v <= n
    ensures |versions| == n && forall i | 0 <= i < n :: versions[i] == i + 1
  {
    if versions == [] {
      assert 1 in versions <==> 1 <= n;
    } else {
      var m := |versions| - 1;
      assert versions[m] in versions && n in versions;
      assert versions[m] == n by {
        var i :| 0 <= i < |versions| && versions[i] == n;
        assert versions[m] in versions;
      }
      forall v: nat ensures v in versions[..m] <==> 1 <= v <= n - 1 {
        if v in versions[..m] {
          var i :| 0 <= i < m && versions[i] == v;
          assert versions[i] < versions[m] && versions[i] in versions;
        }
        assert v in versions <==> v in versions[..m] || v == versions[m];
      }
      AscendingIsCounting(versions[..m], n - 1);
    }
  }

  lemma HeadIsLength(db: Db, id: StreamId, head: nat)
    requires Contiguous(db)
    ensures IsHead(db.events, id, head) <==> head == |StreamOf(db, id)|
  {
    hide Replay, StreamOf;
    var n := |StreamOf(db, id)|;
    assert RowFits(db.events, Key(id, n), StreamOf(db, id)) && RowFits(db.events, Key(id, head), StreamOf(db, id));
    assert forall v: nat | Key(id, v) in db.events :: RowFits(db.events, Key(id, v), StreamOf(db, id));
  }

  /** A statement that is not a commit. */
  lemma StatementKeepsInv(h: Handler, db: Db, a: Action, s': Session, db': Db)
    requires Inv(h, db) && ActsAs(h, db, a, s', db') && !a.Finish?
    ensures Inv(h, db')
  {
    hide Replay, Serial, LogSerial, Based, Ahead, SessionActs, Holds;
    StatementFits(h, db, a, s', db');
    forall t | t in db'.sessions ensures Fits(h, db', t, db'.sessions[t]) {
      if t != a.t {
        assert Fits(h, db, t, db.sessions[t]);
        StaysAhead(db, db', db.sessions[t]);
      }
    }
    StatementKeepsOneWriter(h, db, a, s', db');
  }

  lemma StaysAhead(db: Db, db': Db, s: Session)
    requires Ahead(db, s) && db'.log == db.log && db'.enqueued == db.enqueued && db'.nextId >= db.nextId
    ensures Ahead(db', s)
  {
    hide Replay;
  }

  lemma StatementFits(h: Handler, db: Db, a: Action, s': Session, db': Db)
    requires Inv(h, db) && ActsAs(h, db, a, s', db') && !a.Finish?
    ensures Fits(h, db', a.t, s')
  {
    hide Replay, Serial, LogSerial, OneWriter, Holds;
    assert a.t in db.sessions ==> Fits(h, db, a.t, db.sessions[a.t]);
    match a {
      case Load(_, id, versions) => ReadingIsTheStream(db, id, versions);
      case CheckHead(t, head) => HeadIsLength(db, db.sessions[t].id, head);
      case _ =>
    }
  }

  lemma StatementKeepsOneWriter(h: Handler, db: Db, a: Action, s': Session, db': Db)
    requires Inv(h, db) && ActsAs(h, db, a, s', db') && !a.Finish?
    ensures OneWriter(db')
  {
    hide Replay, Serial, LogSerial, Based, Enqueued;
  }

  // ---- the commit ----

  lemma FinishExtends(h: Handler, db: Db, t: nat, s: Session, db': Db)
    requires Inv(h, db) && Commits(db, t, s, db')
    ensures && s.expected == |StreamOf(db, s.id)|
            && StreamOf(db', s.id) == StreamOf(db, s.id) + s.batch
            && (forall id | id != s.id :: StreamOf(db', id) == StreamOf(db, id))
            && (forall u | u in db.sessions && u != t :: !Inserting(db.sessions[u], s.id))
  {
    hide Replay, Serial, LogSerial, Contiguous, Enqueued, NewEvents, NewIds;
    ReplaySnoc(db.log, Commit(t, s.id, s.expected, s.batch, s.base));
    assert s.ids != [] && Inserting(s, s.id);
  }

  lemma AddedRowFits(events: map<Key, Event>, id: StreamId, k: Key, stream: seq<Event>, batch: seq<Event>)
    requires RowFits(events, k, stream)
    ensures k.stream == id ==> RowFits(events + NewEvents(id, |stream|, batch), k, stream + batch)
  {
    hide NewEvents;
  }

  lemma FinishKeepsTable(h: Handler, db: Db, t: nat, s: Session, db': Db)
    requires Inv(h, db) && Commits(db, t, s, db')
    ensures Contiguous(db')
  {
    hide StreamOf, Based, Ahead, Enqueued, OneWriter, SessionsFit, LogSerial, NewIds, NewEvents, RowFits;
    FinishExtends(h, db, t, s, db');
    forall k: Key ensures RowFits(db'.events, k, StreamOf(db', k.stream)) {
      if k.stream == s.id {
        AddedRowFits(db.events, s.id, k, StreamOf(db, s.id), s.batch);
      } else {
        OtherRowFits(db.events, s, k, StreamOf(db, k.stream));
      }
    }
  }

  lemma OtherRowFits(events: map<Key, Event>, s: Session, k: Key, stream: seq<Event>)
    requires RowFits(events, k, stream) && s.Writing? && k.stream != s.id
    ensures RowFits(events + NewEvents(s.id, s.expected, s.batch), k, stream)
  {
    hide NewEvents;
  }

  /** Where an outbox id after the commit comes from: it was there, or it is the session's. */
  ghost predicate IdComesFrom(db: Db, s: Session, enqueued: map<Key, nat>, k: Key)
    requires s.Writing? && k in enqueued
  {
    if k.stream == s.id && k.version > s.expected then
      k.version <= s.expected + |s.ids| && enqueued[k] == s.ids[k.version - s.expected - 1]
    else
      k in db.enqueued && enqueued[k] == db.enqueued[k]
  }

  lemma FinishAddsIds(h: Handler, db: Db, t: nat, s: Session, db': Db)
    requires Inv(h, db) && Commits(db, t, s, db')
    ensures forall k | k in db'.enqueued :: IdComesFrom(db, s, db'.enqueued, k)
  {
    hide StreamOf, Replay, Based, Ahead, OneWriter, SessionsFit, LogSerial, InOrder, Below, Waiting, NewEvents, NewIds;
    FinishExtends(h, db, t, s, db');
    forall k | k in db'.enqueued ensures IdComesFrom(db, s, db'.enqueued, k) {
      assert RowFits(db.events, k, StreamOf(db, k.stream));
    }
  }

  lemma FinishAddsRows(h: Handler, db: Db, t: nat, s: Session, db': Db)
    requires Inv(h, db) && Commits(db, t, s, db')
    ensures forall k :: k in db'.enqueued <==> k in db'.events
    ensures Waiting(db'.outbox, db'.enqueued)
  {
    hide Contiguous, StreamOf, Replay, Based, Ahead, OneWriter, SessionsFit, LogSerial;
    hide InOrder, Below, NewEvents, NewIds;
  }

  lemma IdsStayInOrder(db: Db, s: Session, enqueued: map<Key, nat>, k: Key, k': Key)
    requires Enqueued(db) && s.Writing? && Ahead(db, s)
    requires k in enqueued && k' in enqueued && k.stream == k'.stream && k.version < k'.version
    requires IdComesFrom(db, s, enqueued, k) && IdComesFrom(db, s, enqueued, k')
    ensures enqueued[k] < enqueued[k']
  {
    hide StreamOf;
  }

  lemma IdsStayBelow(db: Db, s: Session, enqueued: map<Key, nat>, k: Key)
    requires Enqueued(db) && s.Writing? && Ahead(db, s) && k in enqueued && IdComesFrom(db, s, enqueued, k)
    ensures enqueued[k] < db.nextId
  {
    hide StreamOf;
  }

  lemma FinishKeepsIds(h: Handler, db: Db, t: nat, s: Session, db': Db)
    requires Inv(h, db) && Commits(db, t, s, db')
    ensures InOrder(db'.enqueued) && Below(db'.enqueued, db'.nextId)
  {
    hide Ahead, Enqueued, IdComesFrom, Based, OneWriter, LogSerial, Contiguous, NewIds, NewEvents;
    FinishAddsIds(h, db, t, s, db');
    assert Fits(h, db, t, s);
    forall k, k' | k in db'.enqueued && k' in db'.enqueued && k.stream == k'.stream && k.version < k'.version
      ensures db'.enqueued[k] < db'.enqueued[k']
    {
      IdsStayInOrder(db, s, db'.enqueued, k, k');
    }
    forall k | k in db'.enqueued ensures db'.enqueued[k] < db'.nextId {
      IdsStayBelow(db, s, db'.enqueued, k);
    }
  }

  lemma {:induction false} FinishKeepsEnqueued(h: Handler, db: Db, t: nat, s: Session, db': Db)
    requires Inv(h, db) && Commits(db, t, s, db')
    ensures Enqueued(db')
  {
    hide Inv, Commits, InOrder, Below, Waiting;
    FinishKeepsIds(h, db, t, s, db');
    FinishAddsRows(h, db, t, s, db');
  }

  lemma FinishKeepsSessions(h: Handler, db: Db, t: nat, s: Session, db': Db)
    requires Inv(h, db) && Commits(db, t, s, db')
    ensures SessionsFit(h, db') && OneWriter(db')
  {
    hide StreamOf, LogSerial, Contiguous, Enqueued, Based, Ahead, NewEvents, NewIds;
    FinishExtends(h, db, t, s, db');
    forall u | u in db'.sessions ensures Fits(h, db', u, db'.sessions[u]) {
      if u != t {
        OtherSessionFits(h, db, t, s, db', u);
      } else {
        EndedFits(h, db', t, Saved);
      }
    }
  }

  lemma EndedFits(h: Handler, db: Db, t: nat, end: End)
    ensures Fits(h, db, t, Over(end))
  {
  }

  lemma OtherSessionFits(h: Handler, db: Db, t: nat, s: Session, db': Db, u: nat)
    requires Inv(h, db) && Commits(db, t, s, db') && u in db.sessions && u != t
    ensures Fits(h, db', u, db.sessions[u])
  {
    hide StreamOf, LogSerial, Contiguous, Enqueued, OneWriter, NewEvents, NewIds;
    FinishExtends(h, db, t, s, db');
    assert Fits(h, db, u, db.sessions[u]);
    var other := db.sessions[u];
    if other.Writing? && other.ids != [] {
      assert Inserting(other, other.id);
    }
  }

  lemma {:induction false} FinishKeepsLog(h: Handler, db: Db, t: nat, s: Session, db': Db)
    requires Inv(h, db) && Commits(db, t, s, db')
    ensures LogSerial(h, db'.log)
  {
    hide Contiguous, Enqueued, OneWriter, NewEvents, NewIds, Replay, Ahead;
    FinishExtends(h, db, t, s, db');
    assert Fits(h, db, t, s);
    var n := |db.log|;
    forall i | 0 <= i <= n ensures Serial(h, db'.log[i], Stream(Replay(db'.log[..i]), db'.log[i].id)) {
      if i < n {
        assert db'.log[i] == db.log[i] && db'.log[..i] == db.log[..i];
        assert Serial(h, db.log[i], Stream(Replay(db.log[..i]), db.log[i].id));
      } else {
        assert db'.log[..i] == db.log;
      }
    }
  }

  lemma {:induction false} ActionKeepsInv(h: Handler, db: Db, a: Action, db': Db)
    requires Inv(h, db) && Acts(h, db, a, db')
    ensures Inv(h, db')
  {
    var s' :| ActsAs(h, db, a, s', db');
    if a.Finish? {
      assert Commits(db, a.t, db.sessions[a.t], db');
      hide Inv, ActsAs, Commits, SessionActs;
      var s := db.sessions[a.t];
      FinishKeepsTable(h, db, a.t, s, db');
      FinishKeepsEnqueued(h, db, a.t, s, db');
      FinishKeepsSessions(h, db, a.t, s, db');
      FinishKeepsLog(h, db, a.t, s, db');
      InvIs(h, db');
    } else {
      hide Inv, ActsAs, Commits, SessionActs;
      StatementKeepsInv(h, db, a, s', db');
    }
  }

  lemma InvIs(h: Handler, db: Db)
    requires Contiguous(db) && SessionsFit(h, db) && OneWriter(db) && Enqueued(db) && LogSerial(h, db.log)
    ensures Inv(h, db)
  {
  }

  // ---- runs ----

  ghost predicate Run(h: Handler, dbs: seq<Db>) {
    && dbs != [] && dbs[0] == EMPTY
    && forall i | 0 <= i < |dbs| - 1 :: Step(h, dbs[i], dbs[i + 1])
  }

  /** The relay's transaction commits: rows leave the outbox. */
  predicate Removes(db: Db, keys: set<Key>, db': Db) {
    db' == db.(outbox := db.outbox - keys)
  }

  ghost predicate Step(h: Handler, db: Db, db': Db) {
    (exists a :: Acts(h, db, a, db')) || exists keys :: Removes(db, keys, db')
  }

  lemma RemovalKeepsInv(h: Handler, db: Db, keys: set<Key>, db': Db)
    requires Inv(h, db) && Removes(db, keys, db')
    ensures Inv(h, db')
  {
    hide Replay, LogSerial, Based, RowFits, InOrder, Below;
    assert forall id :: StreamOf(db', id) == StreamOf(db, id);
    forall t | t in db'.sessions ensures Fits(h, db', t, db'.sessions[t]) {
      assert Fits(h, db, t, db.sessions[t]);
    }
  }

  ghost predicate Reachable(h: Handler, db: Db) {
    exists dbs :: Run(h, dbs) && dbs[|dbs| - 1] == db
  }

  lemma EmptyInv(h: Handler)
    ensures Inv(h, EMPTY)
  {
  }

  lemma StepKeepsInv(h: Handler, db: Db, db': Db)
    requires Inv(h, db) && Step(h, db, db')
    ensures Inv(h, db')
  {
    hide Inv, Acts, Removes;
    if a :| Acts(h, db, a, db') {
      ActionKeepsInv(h, db, a, db');
    } else {
      var keys :| Removes(db, keys, db');
      RemovalKeepsInv(h, db, keys, db');
    }
  }

  lemma {:induction false} RunKeepsInv(h: Handler, dbs: seq<Db>)
    requires Run(h, dbs)
    ensures Inv(h, dbs[|dbs| - 1])
    decreases |dbs|
  {
    hide Inv, Acts;
    if |dbs| == 1 {
      EmptyInv(h);
    } else {
      var before := dbs[..|dbs| - 1];
      forall i | 0 <= i < |before| - 1 ensures Step(h, before[i], before[i + 1]) {
        assert Step(h, dbs[i], dbs[i + 1]);
      }
      RunKeepsInv(h, before);
      assert Step(h, dbs[|dbs| - 2], dbs[|dbs| - 1]);
      StepKeepsInv(h, dbs[|dbs| - 2], dbs[|dbs| - 1]);
    }
  }

  lemma {:induction false} ReachableInv(h: Handler, db: Db)
    requires Reachable(h, db)
    ensures Inv(h, db)
  {
    hide Inv, Step;
    var dbs :| Run(h, dbs) && dbs[|dbs| - 1] == db;
    RunKeepsInv(h, dbs);
  }

  // ---- what holds in every run ----

  /** The rows of a stream are versions 1 to n, so its head is its length, whatever sessions did in between. */
  lemma VersionsCount(h: Handler, db: Db, id: StreamId, v: nat)
    requires Reachable(h, db)
    ensures Key(id, v) in db.events <==> 1 <= v <= |StreamOf(db, id)|
    ensures IsHead(db.events, id, v) <==> v == |StreamOf(db, id)|
  {
    ReachableInv(h, db);
    assert RowFits(db.events, Key(id, v), StreamOf(db, id));
    HeadIsLength(db, id, v);
  }

  /**
   The interleaved statements refine the in-memory append, which runs in one piece: a commit is an append that the
   in-memory store would have accepted at that moment, a conflict is one it would have refused at that moment, and no
   other statement changes any stream.
   */
  lemma StatementsRefineAppend(h: Handler, db: Db, a: Action, db': Db)
    requires Reachable(h, db) && Acts(h, db, a, db')
    ensures a.Finish? <==> db'.sessions[a.t] == Over(Saved)
    ensures a.Finish? ==>
              var s := db.sessions[a.t];
              && s.Writing? && AppendOutcome(Replay(db.log), s.id, s.expected) == Done
              && Replay(db'.log) == Grow(Replay(db.log), s.id, s.batch)
    ensures db'.sessions[a.t] == Over(Conflict) ==>
              var s := db.sessions[a.t];
              && (s.Opened? || s.Writing?) && AppendOutcome(Replay(db.log), s.id, s.expected) == Failure(Concurrency)
              && Replay(db'.log) == Replay(db.log) && db'.events == db.events && db'.outbox == db.outbox
    ensures !a.Finish? ==> Replay(db'.log) == Replay(db.log)
  {
    ReachableInv(h, db);
    hide Reachable, Replay, LogSerial, Enqueued, OneWriter, NewEvents, NewIds, IsHead;
    var s' :| ActsAs(h, db, a, s', db');
    match a {
      case Finish(t) =>
        var s := db.sessions[t];
        FinishExtends(h, db, t, s, db');
        ReplaySnoc(db.log, Commit(t, s.id, s.expected, s.batch, s.base));
      case CheckHead(t, head) => HeadIsLength(db, db.sessions[t].id, head);
      case Insert(t) =>
        var s := db.sessions[t];
        assert RowFits(db.events, Slot(s), StreamOf(db, s.id)) && Fits(h, db, t, s);
      case _ =>
    }
  }

  /** Two committed appends to a stream never expected the same version. */
  lemma OneWriterWins(h: Handler, db: Db, i: nat, j: nat)
    requires Reachable(h, db) && i < j < |db.log| && db.log[i].id == db.log[j].id
    ensures db.log[i].expected + |db.log[i].batch| <= db.log[j].expected
    ensures db.log[i].expected < db.log[j].expected
  {
    hide Inv, Reachable, LogSerial, Replay;
    ReachableInv(h, db);
    LogIsSerial(h, db);
    CommitMovesTheHead(h, db.log, i);
    CommitMovesTheHead(h, db.log, j);
    assert db.log[..j][..i + 1] == db.log[..i + 1];
    ReplayGrows(db.log[..j], i + 1, db.log[i].id);
  }

  lemma LogIsSerial(h: Handler, db: Db)
    requires Inv(h, db)
    ensures LogSerial(h, db.log)
  {
  }

  lemma CommitMovesTheHead(h: Handler, log: seq<Commit>, i: nat)
    requires LogSerial(h, log) && i < |log|
    ensures log[i].batch != [] && |Stream(Replay(log[..i]), log[i].id)| == log[i].expected
    ensures |Stream(Replay(log[..i + 1]), log[i].id)| == log[i].expected + |log[i].batch|
  {
    hide Replay;
    assert Serial(h, log[i], Stream(Replay(log[..i]), log[i].id));
    assert log[..i + 1] == log[..i] + [log[i]];
    ReplaySnoc(log[..i], log[i]);
  }

  lemma {:induction false} ReplayGrows(log: seq<Commit>, n: nat, id: StreamId)
    requires n <= |log|
    ensures Stream(Replay(log[..n]), id) <= Stream(Replay(log), id)
    decreases |log|
  {
    hide Replay;
    if n == |log| {
      assert log[..n] == log;
    } else {
      var m := |log| - 1;
      ReplayGrows(log[..m], n, id);
      assert log[..m][..n] == log[..n] && log == log[..m] + [log[m]];
      ReplaySnoc(log[..m], log[m]);
    }
  }

  /** The streams after running the handlers one at a time, each to its end, in the order of `log`. */
  function OneAtATime(h: Handler, log: seq<Commit>): Streams {
    if log == [] then map[]
    else
      var ss, c := OneAtATime(h, log[..|log| - 1]), log[|log| - 1];
      Grow(ss, c.id, h(c.session, Stream(ss, c.id)))
  }

  /**
   Optimistic concurrency is serialisable: however the statements of load, decide and append were interleaved, the
   streams are those of the committed handlers running one after the other, and nobody else left a trace.
   */
  lemma CommitsAreSerialisable(h: Handler, db: Db)
    requires Reachable(h, db) && forall i | 0 <= i < |db.log| :: db.log[i].base.Some?
    ensures OneAtATime(h, db.log) == Replay(db.log)
    ensures forall k: Key :: RowFits(db.events, k, Stream(OneAtATime(h, db.log), k.stream))
  {
    ReachableInv(h, db);
    hide Reachable, OneAtATime, Replay, SessionsFit, OneWriter, Enqueued, RowFits;
    assert db.log[..|db.log|] == db.log;
    SerialIsReplay(h, db.log, |db.log|);
    assert forall k: Key :: StreamOf(db, k.stream) == Stream(Replay(db.log), k.stream);
  }

  lemma NothingRan(h: Handler)
    ensures OneAtATime(h, []) == Replay([]) == map[]
  {
  }

  lemma OneAtATimeSnoc(h: Handler, log: seq<Commit>, c: Commit)
    ensures var ss := OneAtATime(h, log);
            OneAtATime(h, log + [c]) == Grow(ss, c.id, h(c.session, Stream(ss, c.id)))
  {
    assert (log + [c])[..|log|] == log;
  }

  lemma SerialAt(h: Handler, log: seq<Commit>, i: nat)
    requires LogSerial(h, log) && i < |log|
    ensures Serial(h, log[i], Stream(Replay(log[..i]), log[i].id))
  {
  }

  lemma {:induction false} SerialIsReplay(h: Handler, log: seq<Commit>, n: nat)
    requires LogSerial(h, log) && n <= |log| && forall i | 0 <= i < |log| :: log[i].base.Some?
    ensures OneAtATime(h, log[..n]) == Replay(log[..n])
  {
    hide Replay, OneAtATime, LogSerial;
    if n == 0 {
      assert log[..0] == [];
      NothingRan(h);
    } else {
      SerialIsReplay(h, log, n - 1);
      assert log[..n] == log[..n - 1] + [log[n - 1]];
      ReplaySnoc(log[..n - 1], log[n - 1]);
      OneAtATimeSnoc(h, log[..n - 1], log[n - 1]);
      SerialAt(h, log, n - 1);
      assert Serial(h, log[n - 1], Stream(Replay(log[..n - 1]), log[n - 1].id));
    }
  }

  /**
   A commit enqueues exactly its own events, in version order and behind every earlier event of the stream; anything
   else leaves the outbox alone.
   */
  lemma CommitEnqueuesItsEvents(h: Handler, db: Db, a: Action, db': Db)
    requires Reachable(h, db) && Acts(h, db, a, db')
    ensures forall k | k !in db.events :: k in db'.outbox <==> k in db'.events
    ensures forall k | k in db.events :: k in db'.events && (k in db'.outbox <==> k in db.outbox)
    ensures forall k, k' | k in db'.outbox && k' in db'.outbox && k.stream == k'.stream && k.version < k'.version ::
              db'.outbox[k] < db'.outbox[k']
  {
    ReachableInv(h, db);
    ActionKeepsInv(h, db, a, db');
    OutboxFollowsTable(h, db, a, db');
    hide Contiguous, SessionsFit, OneWriter, LogSerial, Acts, Reachable;
  }

  lemma OutboxFollowsTable(h: Handler, db: Db, a: Action, db': Db)
    requires Inv(h, db) && Acts(h, db, a, db')
    ensures forall k | k !in db.events :: k in db'.outbox <==> k in db'.events
    ensures forall k | k in db.events :: k in db'.events && (k in db'.outbox <==> k in db.outbox)
  {
    hide LogSerial, OneWriter, NewEvents, NewIds, InOrder, Below, StreamOf, Based, Ahead;
    var s' :| ActsAs(h, db, a, s', db');
    if a.Finish? {
      var s := db.sessions[a.t];
      FinishExtends(h, db, a.t, s, db');
      forall k: Key | k in db.events ensures k.stream == s.id ==> k.version <= s.expected {
        assert RowFits(db.events, k, StreamOf(db, k.stream));
      }
    }
  }

  // ---- a writer without competition ----

  /** Session `t` acts, and nobody else. */
  ghost predicate ActsAlone(h: Handler, db: Db, t: nat, db': Db) {
    exists a: Action :: a.t == t && Acts(h, db, a, db')
  }

  ghost predicate OwnSteps(h: Handler, t: nat, dbs: seq<Db>) {
    dbs != [] && forall i | 0 <= i < |dbs| - 1 :: ActsAlone(h, dbs[i], t, dbs[i + 1])
  }

  /** Session `t` is at the head of its stream, and no other session has anything uncommitted there. */
  ghost predicate Undisputed(h: Handler, db: Db, t: nat) {
    && Inv(h, db) && t in db.sessions && (db.sessions[t].Opened? || db.sessions[t].Writing?)
    && db.sessions[t].expected == |StreamOf(db, db.sessions[t].id)|
    && forall u | u in db.sessions && u != t :: !Inserting(db.sessions[u], db.sessions[t].id)
  }

  lemma FirstOwnStep(h: Handler, t: nat, db: Db, a: Action, dbs: seq<Db>)
    requires OwnSteps(h, t, dbs) && a.t == t && Acts(h, db, a, dbs[0])
    ensures OwnSteps(h, t, [db] + dbs)
  {
    hide Acts;
    var all := [db] + dbs;
    assert ActsAlone(h, db, t, dbs[0]);
    forall i | 0 <= i < |all| - 1 ensures ActsAlone(h, all[i], t, all[i + 1]) {
      assert i > 0 ==> ActsAlone(h, dbs[i - 1], t, dbs[i - 1 + 1]);
    }
  }

  /** It inserts what is left of its batch, one event after the other, and commits. */
  lemma {:induction false} UndisputedInsertsAll(h: Handler, db: Db, t: nat) returns (dbs: seq<Db>)
    requires Undisputed(h, db, t) && db.sessions[t].Writing?
    ensures OwnSteps(h, t, dbs) && dbs[0] == db
    ensures var s := db.sessions[t];
            dbs[|dbs| - 1].log == db.log + [Commit(t, s.id, s.expected, s.batch, s.base)]
    decreases |db.sessions[t].batch| - |db.sessions[t].ids|
  {
    hide Inv, StreamOf, Commits, NewEvents, NewIds;
    var s := db.sessions[t];
    IdsWithinBatch(h, db, t);
    if |s.ids| == |s.batch| {
      var db' := CommitOf(db, t);
      CommitIsAnAction(h, db, t, db');
      dbs := [db, db'];
      assert ActsAlone(h, db, t, db') by {
        assert Finish(t).t == t;
      }
    } else {
      var s' := s.(ids := s.ids + [db.nextId]);
      var db1 := db.(sessions := db.sessions[t := s'], nextId := db.nextId + 1);
      SlotIsFree(h, db, t);
      assert ActsAs(h, db, Insert(t), s', db1);
      assert Acts(h, db, Insert(t), db1);
      ActionKeepsInv(h, db, Insert(t), db1);
      SameLogSameStream(db, db1, s.id);
      var rest := UndisputedInsertsAll(h, db1, t);
      FirstOwnStep(h, t, db, Insert(t), rest);
      dbs := [db] + rest;
    }
  }

  lemma IdsWithinBatch(h: Handler, db: Db, t: nat)
    requires Inv(h, db) && t in db.sessions && db.sessions[t].Writing?
    ensures |db.sessions[t].ids| <= |db.sessions[t].batch|
  {
    hide Contiguous, Enqueued, LogSerial, OneWriter, Based, StreamOf;
    assert Fits(h, db, t, db.sessions[t]);
  }

  lemma SameLogSameStream(db: Db, db': Db, id: StreamId)
    requires db'.log == db.log
    ensures StreamOf(db', id) == StreamOf(db, id)
  {
  }

  lemma SlotIsFree(h: Handler, db: Db, t: nat)
    requires Undisputed(h, db, t) && db.sessions[t].Writing?
    ensures Slot(db.sessions[t]) !in db.events
    ensures forall u | u in db.sessions && u != t :: !Holds(db.sessions[u], Slot(db.sessions[t]))
  {
    hide SessionsFit, Enqueued, LogSerial, OneWriter, StreamOf;
    var k := Slot(db.sessions[t]);
    assert RowFits(db.events, k, StreamOf(db, k.stream));
  }

  /** The tables after session `t` committed. */
  function CommitOf(db: Db, t: nat): Db
    requires t in db.sessions && db.sessions[t].Writing?
  {
    var s := db.sessions[t];
    db.(events := db.events + NewEvents(s.id, s.expected, s.batch),
        outbox := db.outbox + NewIds(s.id, s.expected, s.ids),
        enqueued := db.enqueued + NewIds(s.id, s.expected, s.ids),
        sessions := db.sessions[t := Over(Saved)],
        log := db.log + [Commit(t, s.id, s.expected, s.batch, s.base)])
  }

  lemma CommitIsAnAction(h: Handler, db: Db, t: nat, db': Db)
    requires t in db.sessions && db.sessions[t].Writing? && |db.sessions[t].ids| == |db.sessions[t].batch|
    requires db' == CommitOf(db, t)
    ensures Acts(h, db, Finish(t), db')
  {
    hide NewEvents, NewIds;
    assert Commits(db, t, db.sessions[t], db');
    assert ActsAs(h, db, Finish(t), Over(Saved), db');
  }

  /**
   A session that expects the present head of its stream, with no other writer's uncommitted events there, can always
   commit all of its batch by its own statements.
   */
  lemma {:induction false} UndisputedWriterCommits(h: Handler, db: Db, t: nat) returns (dbs: seq<Db>)
    requires Reachable(h, db) && t in db.sessions && db.sessions[t].Opened?
    requires db.sessions[t].expected == |StreamOf(db, db.sessions[t].id)|
    requires forall u | u in db.sessions && u != t :: !Inserting(db.sessions[u], db.sessions[t].id)
    ensures OwnSteps(h, t, dbs) && dbs[0] == db
    ensures var s := db.sessions[t];
            dbs[|dbs| - 1].log == db.log + [Commit(t, s.id, s.expected, s.batch, s.base)]
  {
    hide Reachable, Inv, StreamOf;
    ReachableInv(h, db);
    var s := db.sessions[t];
    VersionsCount(h, db, s.id, s.expected);
    var s' := Writing(s.id, s.expected, s.batch, s.base, []);
    var db1 := db.(sessions := db.sessions[t := s']);
    assert ActsAs(h, db, CheckHead(t, s.expected), s', db1);
    assert Acts(h, db, CheckHead(t, s.expected), db1);
    ActionKeepsInv(h, db, CheckHead(t, s.expected), db1);
    SameLogSameStream(db, db1, s.id);
    var rest := UndisputedInsertsAll(h, db1, t);
    FirstOwnStep(h, t, db, CheckHead(t, s.expected), rest);
    dbs := [db] + rest;
  }
}
