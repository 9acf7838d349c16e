/**
 The outbox relays: transactions that claim rows of the outbox, publish them one by one, and delete what they published.

 Any publish can fail, any relay can crash after any publish, and a failed commit leaves the rows in place, so a message
 may go out several times.  Relays run beside the handlers of the event store and beside each other.
 */
module OutboxRelay {
  import opened Messages
  import opened PostgresEventStore

  /** How many rows one relay transaction takes at most. */
  const BATCH_SIZE := 100

  /** An open relay transaction: the rows it has locked, and how many of them it has published and deleted. */
  datatype Batch = Batch(claimed: seq<Key>, published: nat)

  /** `pubs` are the publications so far, each named after the event it carried. */
  datatype Plant = Plant(db: Db, relays: map<nat, Batch>, pubs: seq<Key>)

  const IDLE := Plant(EMPTY, map[], [])

  datatype Move =
    | Write(a: Action)
    | Claim(r: nat, keys: seq<Key>)
    | Publish(r: nat)
    | Delete(r: nat)
    | Drop(r: nat)

  predicate Locked(relays: map<nat, Batch>, k: Key) {
    exists r | r in relays :: k in relays[r].claimed
  }

  /** The rows of the outbox with the smallest ids that no other relay has locked, in the order of their ids. */
  ghost predicate NextRows(outbox: map<Key, nat>, relays: map<nat, Batch>, keys: seq<Key>) {
    && |keys| <= BATCH_SIZE
    && (forall i | 0 <= i < |keys| :: keys[i] in outbox && !Locked(relays, keys[i]))
    && (forall i, j | 0 <= i < j < |keys| :: keys[i] != keys[j] && outbox[keys[i]] <= outbox[keys[j]])
    && (forall k | k in outbox && k !in keys && !Locked(relays, k) ::
          |keys| == BATCH_SIZE && forall i | 0 <= i < |keys| :: outbox[keys[i]] <= outbox[k])
  }

  function KeySet(keys: seq<Key>): set<Key> {
    set k | k in keys
  }

  ghost predicate Moves(h: Handler, p: Plant, m: Move, p': Plant) {
    match m
    case Write(a) => Acts(h, p.db, a, p'.db) && p'.relays == p.relays && p'.pubs == p.pubs
    case Claim(r, keys) =>
      r !in p.relays && NextRows(p.db.outbox, p.relays, keys) && p' == p.(relays := p.relays[r := Batch(keys, 0)])
    case Publish(r) =>
      && r in p.relays && p.relays[r].published < |p.relays[r].claimed|
      && var b := p.relays[r];
         p' == p.(relays := p.relays[r := b.(published := b.published + 1)], pubs := p.pubs + [b.claimed[b.published]])
    case Delete(r) =>
      && r in p.relays && p.relays[r].published == |p.relays[r].claimed|
      && Removes(p.db, KeySet(p.relays[r].claimed), p'.db)
      && p'.relays == p.relays - {r} && p'.pubs == p.pubs
    case Drop(r) => r in p.relays && p' == p.(relays := p.relays - {r})
  }

  // ---- any number of relays ----

  /** A relay's rows stay in the outbox until it commits, and it has published the part it says. */
  predicate BatchFits(p: Plant, b: Batch) {
    && b.published <= |b.claimed|
    && (forall i | 0 <= i < |b.claimed| :: b.claimed[i] in p.db.outbox)
    && (forall i | 0 <= i < b.published :: b.claimed[i] in p.pubs)
  }

  ghost predicate Disjoint(relays: map<nat, Batch>) {
    forall r, r', k | r in relays && r' in relays && k in relays[r].claimed && k in relays[r'].claimed :: r == r'
  }

  /** Each event waits in the outbox or went out, and nothing else went out. */
  ghost predicate Delivered(p: Plant) {
    && (forall k | k in p.db.events :: k in p.db.outbox || k in p.pubs)
    && (forall k | k in p.pubs :: k in p.db.events)
  }

  ghost predicate PlantInv(h: Handler, p: Plant) {
    && Inv(h, p.db) && Delivered(p) && Disjoint(p.relays)
    && forall r | r in p.relays :: BatchFits(p, p.relays[r])
  }

  lemma OutboxIsStored(h: Handler, db: Db, k: Key)
    requires Inv(h, db) && k in db.outbox
    ensures k in db.events && k in db.enqueued && db.outbox[k] == db.enqueued[k]
  {
  }

  lemma {:induction false} WriteKeepsPlant(h: Handler, p: Plant, a: Action, p': Plant)
    requires PlantInv(h, p) && Moves(h, p, Write(a), p')
    ensures PlantInv(h, p')
  {
    hide Inv, Acts;
    ActionKeepsInv(h, p.db, a, p'.db);
    OutboxFollowsTable(h, p.db, a, p'.db);
    assert forall k | k in p.db.outbox :: k in p'.db.outbox by {
      forall k | k in p.db.outbox ensures k in p'.db.outbox {
        OutboxIsStored(h, p.db, k);
      }
    }
  }

  lemma ClaimKeepsPlant(h: Handler, p: Plant, r: nat, keys: seq<Key>, p': Plant)
    requires PlantInv(h, p) && Moves(h, p, Claim(r, keys), p')
    ensures PlantInv(h, p')
  {
    hide Inv;
    forall r1, r2, k | r1 in p'.relays && r2 in p'.relays && k in p'.relays[r1].claimed && k in p'.relays[r2].claimed
      ensures r1 == r2
    {
    }
  }

  lemma {:induction false} PublishKeepsPlant(h: Handler, p: Plant, r: nat, p': Plant)
    requires PlantInv(h, p) && Moves(h, p, Publish(r), p')
    ensures PlantInv(h, p')
  {
    hide Inv;
    var b := p.relays[r];
    var k := b.claimed[b.published];
    OutboxIsStored(h, p.db, k);
    assert forall x :: x in p'.pubs <==> x in p.pubs || x == k;
    forall s | s in p'.relays ensures BatchFits(p', p'.relays[s]) {
      assert BatchFits(p, p.relays[s]);
    }
  }

  lemma DeleteKeepsPlant(h: Handler, p: Plant, r: nat, p': Plant)
    requires PlantInv(h, p) && Moves(h, p, Delete(r), p')
    ensures PlantInv(h, p')
  {
    hide Inv;
    var b := p.relays[r];
    RemovalKeepsInv(h, p.db, KeySet(b.claimed), p'.db);
    assert BatchFits(p, b);
    forall k | k in p'.db.events ensures k in p'.db.outbox || k in p'.pubs {
      if k in b.claimed {
        var i :| 0 <= i < |b.claimed| && b.claimed[i] == k;
      }
    }
    forall s | s in p'.relays ensures BatchFits(p', p'.relays[s]) {
      assert BatchFits(p, p.relays[s]);
      forall i | 0 <= i < |p.relays[s].claimed| ensures p.relays[s].claimed[i] in p'.db.outbox {
        assert p.relays[s].claimed[i] !in b.claimed;
      }
    }
  }

  lemma {:induction false} MoveKeepsPlant(h: Handler, p: Plant, m: Move, p': Plant)
    requires PlantInv(h, p) && Moves(h, p, m, p')
    ensures PlantInv(h, p')
  {
    match m {
      case Write(a) => WriteKeepsPlant(h, p, a, p');
      case Claim(r, keys) => ClaimKeepsPlant(h, p, r, keys, p');
      case Publish(r) => PublishKeepsPlant(h, p, r, p');
      case Delete(r) => DeleteKeepsPlant(h, p, r, p');
      case Drop(r) =>
    }
  }

  ghost predicate MovesSomehow(h: Handler, p: Plant, p': Plant) {
    exists m :: Moves(h, p, m, p')
  }

  ghost predicate PlantRun(h: Handler, ps: seq<Plant>) {
    && ps != [] && ps[0] == IDLE
    && forall i | 0 <= i < |ps| - 1 :: MovesSomehow(h, ps[i], ps[i + 1])
  }

  lemma IdleInv(h: Handler)
    ensures PlantInv(h, IDLE)
  {
    hide Inv;
    EmptyInv(h);
  }

  lemma {:induction false} PlantRunKeepsInv(h: Handler, ps: seq<Plant>, i: nat)
    requires PlantRun(h, ps) && i < |ps|
    ensures PlantInv(h, ps[i])
  {
    hide PlantInv, Moves;
    if i == 0 {
      IdleInv(h);
    } else {
      PlantRunKeepsInv(h, ps, i - 1);
      assert MovesSomehow(h, ps[i - 1], ps[i - 1 + 1]);
      var m :| Moves(h, ps[i - 1], m, ps[i]);
      MoveKeepsPlant(h, ps[i - 1], m, ps[i]);
    }
  }

  /** At every moment of every run, each committed event is still in the outbox or was published at least once. */
  lemma AtLeastOnce(h: Handler, ps: seq<Plant>, i: nat, k: Key)
    requires PlantRun(h, ps) && i < |ps| && k in ps[i].db.events
    ensures k in ps[i].db.outbox || k in ps[i].pubs
  {
    hide PlantRun, Inv;
    PlantRunKeepsInv(h, ps, i);
  }

  /** Nothing is published that was not committed. */
  lemma NoPhantoms(h: Handler, ps: seq<Plant>, i: nat, k: Key)
    requires PlantRun(h, ps) && i < |ps| && k in ps[i].pubs
    ensures k in ps[i].db.events
  {
    hide PlantRun, Inv;
    PlantRunKeepsInv(h, ps, i);
  }

  // ---- a single relay ----

  /** No second transaction opens while one is open. */
  ghost predicate MovesAlone(h: Handler, p: Plant, m: Move, p': Plant) {
    Moves(h, p, m, p') && (m.Claim? ==> p.relays == map[])
  }

  /** What waits is the newest part of each stream. */
  ghost predicate NewestWait(db: Db) {
    forall k, k' | k in db.outbox && k' in db.events && k.stream == k'.stream && k.version < k'.version ::
      k' in db.outbox
  }

  /** Before a version goes out, every earlier version of its stream has gone out. */
  ghost predicate InTurn(pubs: seq<Key>) {
    forall i, k: Key | 0 <= i < |pubs| && k.stream == pubs[i].stream && 1 <= k.version < pubs[i].version ::
      k in pubs[..i]
  }

  /** `k` was the last publication of its stream. */
  ghost predicate LastSent(pubs: seq<Key>, k: Key) {
    exists i :: 0 <= i < |pubs| && pubs[i] == k && forall j | i < j < |pubs| :: pubs[j].stream != k.stream
  }

  ghost predicate Top(events: map<Key, Event>, k: Key) {
    k in events && forall k' | k' in events && k'.stream == k.stream :: k'.version <= k.version
  }

  predicate Drained(outbox: map<Key, nat>, id: StreamId) {
    forall k | k in outbox :: k.stream != id
  }

  ghost predicate NewestSentLast(db: Db, pubs: seq<Key>) {
    forall k | Top(db.events, k) && Drained(db.outbox, k.stream) :: LastSent(pubs, k)
  }

  /** A claimed row comes with every row of its stream that waits before it. */
  ghost predicate TakenInOrder(db: Db, claimed: seq<Key>) {
    && (forall i, j | 0 <= i < j < |claimed| && claimed[i].stream == claimed[j].stream ::
          claimed[i].version < claimed[j].version)
    && (forall i, k | 0 <= i < |claimed| && k in db.outbox && k.stream == claimed[i].stream
                      && k.version < claimed[i].version :: k in claimed[..i])
  }

  ghost predicate LastOfItsStream(claimed: seq<Key>, i: nat, n: nat)
    requires i < n <= |claimed|
  {
    forall j | i < j < n :: claimed[j].stream != claimed[i].stream
  }

  ghost predicate SentInOrder(pubs: seq<Key>, b: Batch)
    requires b.published <= |b.claimed|
  {
    forall i | 0 <= i < b.published && LastOfItsStream(b.claimed, i, b.published) :: LastSent(pubs, b.claimed[i])
  }

  ghost predicate Alone(relays: map<nat, Batch>) {
    forall r, r' | r in relays && r' in relays :: r == r'
  }

  ghost predicate SoloInv(h: Handler, p: Plant) {
    && PlantInv(h, p) && Alone(p.relays) && NewestWait(p.db) && InTurn(p.pubs) && NewestSentLast(p.db, p.pubs)
    && forall r | r in p.relays ::
         BatchFits(p, p.relays[r]) && TakenInOrder(p.db, p.relays[r].claimed) && SentInOrder(p.pubs, p.relays[r])
  }

  lemma EarlierIsStored(h: Handler, db: Db, k: Key, k': Key)
    requires Inv(h, db) && k in db.events && k'.stream == k.stream && 1 <= k'.version <= k.version
    ensures k' in db.events
  {
    hide StreamOf, SessionsFit, OneWriter, Enqueued, LogSerial;
    assert RowFits(db.events, k, StreamOf(db, k.stream)) && RowFits(db.events, k', StreamOf(db, k.stream));
  }

  lemma StoredIsPositive(h: Handler, db: Db, k: Key)
    requires Inv(h, db) && k in db.events
    ensures k.version >= 1
  {
    hide StreamOf, SessionsFit, OneWriter, Enqueued, LogSerial;
    assert RowFits(db.events, k, StreamOf(db, k.stream));
  }

  lemma IdsFollowVersions(h: Handler, db: Db, k: Key, k': Key)
    requires Inv(h, db) && k in db.outbox && k' in db.outbox && k.stream == k'.stream && k.version < k'.version
    ensures db.outbox[k] < db.outbox[k']
  {
  }

  lemma SentNow(pubs: seq<Key>, k: Key)
    ensures LastSent(pubs + [k], k)
  {
    assert (pubs + [k])[|pubs|] == k;
  }

  lemma StillLast(pubs: seq<Key>, k: Key, x: Key)
    requires LastSent(pubs, k) && x.stream != k.stream
    ensures LastSent(pubs + [x], k)
  {
    var i :| 0 <= i < |pubs| && pubs[i] == k && forall j | i < j < |pubs| :: pubs[j].stream != k.stream;
    assert (pubs + [x])[i] == k;
  }

  /** A write adds rows behind the ones that wait. */
  lemma WriteAddsBehind(h: Handler, p: Plant, a: Action, p': Plant, k: Key, k': Key)
    requires PlantInv(h, p) && Moves(h, p, Write(a), p')
    requires k in p'.db.outbox && k' in p.db.events && k.stream == k'.stream && k.version < k'.version
    ensures k in p.db.events && k in p.db.outbox
  {
    hide Inv, Acts;
    ActionKeepsInv(h, p.db, a, p'.db);
    OutboxIsStored(h, p'.db, k);
    StoredIsPositive(h, p'.db, k);
    EarlierIsStored(h, p.db, k', k);
    OutboxFollowsTable(h, p.db, a, p'.db);
  }

  lemma {:induction false} WriteKeepsSolo(h: Handler, p: Plant, a: Action, p': Plant)
    requires SoloInv(h, p) && Moves(h, p, Write(a), p')
    ensures NewestWait(p'.db) && NewestSentLast(p'.db, p'.pubs)
    ensures forall r | r in p.relays :: TakenInOrder(p'.db, p.relays[r].claimed)
  {
    hide Inv, Acts, LastSent;
    OutboxFollowsTable(h, p.db, a, p'.db);
    forall k, k' | k in p'.db.outbox && k' in p'.db.events && k.stream == k'.stream && k.version < k'.version
      ensures k' in p'.db.outbox
    {
      if k' in p.db.events {
        WriteAddsBehind(h, p, a, p', k, k');
      }
    }
    forall k | k in p.db.outbox ensures k in p'.db.outbox {
      OutboxIsStored(h, p.db, k);
    }
    forall r, i, k | r in p.relays && 0 <= i < |p.relays[r].claimed| && k in p'.db.outbox
                     && k.stream == p.relays[r].claimed[i].stream && k.version < p.relays[r].claimed[i].version
      ensures k in p.relays[r].claimed[..i]
    {
      var c := p.relays[r].claimed[i];
      assert BatchFits(p, p.relays[r]);
      OutboxIsStored(h, p.db, c);
      WriteAddsBehind(h, p, a, p', k, c);
    }
  }

  lemma ClaimIsInOrder(h: Handler, p: Plant, keys: seq<Key>)
    requires Inv(h, p.db) && NextRows(p.db.outbox, map[], keys)
    ensures TakenInOrder(p.db, keys)
  {
    hide Inv;
    var outbox := p.db.outbox;
    forall i, j | 0 <= i < j < |keys| && keys[i].stream == keys[j].stream ensures keys[i].version < keys[j].version {
      if keys[j].version < keys[i].version {
        IdsFollowVersions(h, p.db, keys[j], keys[i]);
      }
    }
    forall i, k | 0 <= i < |keys| && k in outbox && k.stream == keys[i].stream && k.version < keys[i].version
      ensures k in keys[..i]
    {
      IdsFollowVersions(h, p.db, k, keys[i]);
      assert !Locked(map[], k);
      var j :| 0 <= j < |keys| && keys[j] == k;
      assert j < i;
    }
  }

  lemma {:induction false} PublishIsInTurn(h: Handler, p: Plant, b: Batch)
    requires PlantInv(h, p) && InTurn(p.pubs) && BatchFits(p, b) && TakenInOrder(p.db, b.claimed)
    requires b.published < |b.claimed|
    ensures InTurn(p.pubs + [b.claimed[b.published]])
  {
    hide Inv;
    var c := b.claimed[b.published];
    var pubs' := p.pubs + [c];
    OutboxIsStored(h, p.db, c);
    forall i, k: Key | 0 <= i < |pubs'| && k.stream == pubs'[i].stream && 1 <= k.version < pubs'[i].version
      ensures k in pubs'[..i]
    {
      if i < |p.pubs| {
        assert pubs'[..i] == p.pubs[..i] && k in p.pubs[..i];
      } else {
        assert pubs'[..i] == p.pubs;
        EarlierIsStored(h, p.db, c, k);
        if k in p.db.outbox {
          var j :| 0 <= j < b.published && b.claimed[..b.published][j] == k;
          assert b.claimed[j] in p.pubs;
        }
      }
    }
  }

  lemma {:induction false} PublishKeepsLast(h: Handler, p: Plant, r: nat, p': Plant)
    requires SoloInv(h, p) && Moves(h, p, Publish(r), p')
    ensures NewestSentLast(p'.db, p'.pubs) && SentInOrder(p'.pubs, p'.relays[r])
  {
    hide Inv, LastSent, InTurn, TakenInOrder;
    var b := p.relays[r];
    var c := b.claimed[b.published];
    assert BatchFits(p, b);
    forall k | Top(p'.db.events, k) && Drained(p'.db.outbox, k.stream) ensures LastSent(p'.pubs, k) {
      assert LastSent(p.pubs, k);
      StillLast(p.pubs, k, c);
    }
    forall i | 0 <= i < b.published + 1 && LastOfItsStream(b.claimed, i, b.published + 1)
      ensures LastSent(p'.pubs, b.claimed[i])
    {
      if i == b.published {
        SentNow(p.pubs, c);
      } else {
        assert LastOfItsStream(b.claimed, i, b.published);
        StillLast(p.pubs, b.claimed[i], c);
      }
    }
  }

  /** Rows are deleted from the front of each stream. */
  lemma DeleteKeepsWaiting(db: Db, claimed: seq<Key>, db': Db)
    requires NewestWait(db) && TakenInOrder(db, claimed) && Removes(db, KeySet(claimed), db')
    ensures NewestWait(db')
  {
    forall k, k' | k in db'.outbox && k' in db'.events && k.stream == k'.stream && k.version < k'.version
      ensures k' in db'.outbox
    {
      assert k in db.outbox && k !in claimed && k' in db.outbox;
      assert forall i | 0 <= i <= |claimed| :: k !in claimed[..i];
    }
  }

  lemma {:induction false} DeleteKeepsSolo(h: Handler, p: Plant, r: nat, p': Plant)
    requires SoloInv(h, p) && Moves(h, p, Delete(r), p')
    ensures NewestWait(p'.db) && NewestSentLast(p'.db, p'.pubs)
  {
    hide Inv, LastSent, InTurn, TakenInOrder, SentInOrder, NewestWait;
    DeleteKeepsWaiting(p.db, p.relays[r].claimed, p'.db);
    forall k | Top(p'.db.events, k) && Drained(p'.db.outbox, k.stream) ensures LastSent(p'.pubs, k) {
      TopWasSentLast(h, p, r, p', k);
    }
  }

  lemma {:induction false} TopWasSentLast(h: Handler, p: Plant, r: nat, p': Plant, k: Key)
    requires SoloInv(h, p) && Moves(h, p, Delete(r), p') && Top(p.db.events, k) && Drained(p'.db.outbox, k.stream)
    ensures LastSent(p.pubs, k)
  {
    hide Inv, LastSent, InTurn;
    var b := p.relays[r];
    if !Drained(p.db.outbox, k.stream) {
      var x :| x in p.db.outbox && x.stream == k.stream;
      OutboxIsStored(h, p.db, x);
      assert x == k || x.version < k.version;
      assert k in p.db.outbox && k in KeySet(b.claimed);
      var i :| 0 <= i < |b.claimed| && b.claimed[i] == k;
      forall j | i < j < |b.claimed| ensures b.claimed[j].stream != k.stream {
        assert BatchFits(p, b) && TakenInOrder(p.db, b.claimed);
        OutboxIsStored(h, p.db, b.claimed[j]);
      }
      assert LastOfItsStream(b.claimed, i, b.published) && SentInOrder(p.pubs, b);
    }
  }

  lemma {:induction false} MoveKeepsSolo(h: Handler, p: Plant, m: Move, p': Plant)
    requires SoloInv(h, p) && MovesAlone(h, p, m, p')
    ensures SoloInv(h, p')
  {
    hide Inv, Acts, LastSent, InTurn, NewestWait, NewestSentLast, TakenInOrder, LastOfItsStream;
    hide Delivered, Disjoint, NextRows;
    MoveKeepsPlant(h, p, m, p');
    match m {
      case Write(a) => WriteKeepsSolo(h, p, a, p');
      case Claim(r, keys) => ClaimIsInOrder(h, p, keys);
      case Publish(r) =>
        PublishIsInTurn(h, p, p.relays[r]);
        PublishKeepsLast(h, p, r, p');
      case Delete(r) => DeleteKeepsSolo(h, p, r, p');
      case Drop(r) =>
    }
  }

  ghost predicate MovesAloneSomehow(h: Handler, p: Plant, p': Plant) {
    exists m :: MovesAlone(h, p, m, p')
  }

  ghost predicate SoloRun(h: Handler, ps: seq<Plant>) {
    && ps != [] && ps[0] == IDLE
    && forall i | 0 <= i < |ps| - 1 :: MovesAloneSomehow(h, ps[i], ps[i + 1])
  }

  lemma SoloIdleInv(h: Handler)
    ensures SoloInv(h, IDLE)
  {
    hide Inv;
    IdleInv(h);
  }

  lemma {:induction false} SoloRunKeepsInv(h: Handler, ps: seq<Plant>, i: nat)
    requires SoloRun(h, ps) && i < |ps|
    ensures SoloInv(h, ps[i])
  {
    hide SoloInv, MovesAlone;
    if i == 0 {
      SoloIdleInv(h);
    } else {
      SoloRunKeepsInv(h, ps, i - 1);
      assert MovesAloneSomehow(h, ps[i - 1], ps[i - 1 + 1]);
      var m :| MovesAlone(h, ps[i - 1], m, ps[i]);
      MoveKeepsSolo(h, ps[i - 1], m, ps[i]);
    }
  }

  /** With one relay, whatever fails and is repeated, a version first goes out after the version before it. */
  lemma FirstSentInOrder(h: Handler, ps: seq<Plant>, i: nat, n: nat)
    requires SoloRun(h, ps) && i < |ps| && n < |ps[i].pubs| && ps[i].pubs[n].version > 1
    ensures exists m :: 0 <= m < n && ps[i].pubs[m] == ps[i].pubs[n].(version := ps[i].pubs[n].version - 1)
  {
    hide SoloRun, PlantInv;
    SoloRunKeepsInv(h, ps, i);
    var k := ps[i].pubs[n].(version := ps[i].pubs[n].version - 1);
    assert k in ps[i].pubs[..n];
  }

  /** And once nothing of a stream waits, what was published last is its newest event. */
  lemma NewestIsSentLast(h: Handler, ps: seq<Plant>, i: nat, id: StreamId)
    requires SoloRun(h, ps) && i < |ps| && Drained(ps[i].db.outbox, id)
    requires var n := |StreamOf(ps[i].db, id)|; n > 0
    ensures LastSent(ps[i].pubs, Key(id, |StreamOf(ps[i].db, id)|))
  {
    hide SoloRun, Inv, StreamOf, LastSent;
    SoloRunKeepsInv(h, ps, i);
    HeadIsTop(h, ps[i].db, id);
  }

  lemma HeadIsTop(h: Handler, db: Db, id: StreamId)
    requires Inv(h, db) && |StreamOf(db, id)| > 0
    ensures Top(db.events, Key(id, |StreamOf(db, id)|))
  {
    hide StreamOf, SessionsFit, OneWriter, Enqueued, LogSerial;
    var k := Key(id, |StreamOf(db, id)|);
    assert RowFits(db.events, k, StreamOf(db, id));
    forall k' | k' in db.events && k'.stream == id ensures k'.version <= k.version {
      assert RowFits(db.events, k', StreamOf(db, id));
    }
  }

  // ---- the dispatch loop ----

  /** What one dispatch publishes: the first rows of the outbox. */
  function FirstBatch(rows: seq<Key>): seq<Key> {
    if |rows| <= BATCH_SIZE then rows else rows[..BATCH_SIZE]
  }

  /** The outbox table in id order, the transport, and the dispatch of one batch in one transaction. */
  class Relay {
    var rows: seq<Key>
    var pubs: seq<Key>
    var failures: nat // how often the transport or the database failed

    constructor (rows: seq<Key>)
      ensures this.rows == rows && pubs == [] && failures == 0
    {
      this.rows, pubs, failures := rows, [], 0;
    }

    /** The transport may fail, before or after the message went out. */
    method Publish(k: Key) returns (ok: bool)
      modifies this`pubs, this`failures
      ensures pubs == old(pubs) + [k] || (!ok && pubs == old(pubs))
      ensures failures == old(failures) + if ok then 0 else 1
    {
      var sent: bool := *;
      var reported: bool := *;
      if sent {
        pubs := pubs + [k];
      }
      ok := sent && reported;
      if !ok {
        failures := failures + 1;
      }
    }

    /** A statement of the transaction, its commit included, may fail. */
    method Execute() returns (ok: bool)
      modifies this`failures
      ensures failures == old(failures) + if ok then 0 else 1
    {
      ok := *;
      if !ok {
        failures := failures + 1;
      }
    }

    /**
     Publishes the first batch row by row.  The rows are gone afterwards exactly if the dispatch succeeded, and then
     all of them were published; a failure anywhere leaves every row in place, though some may have gone out.  Nothing but
     a failure keeps it from succeeding.
     */
    method DispatchPending() returns (ok: bool, n: nat)
      modifies this
      ensures old(pubs) <= pubs <= old(pubs) + FirstBatch(old(rows))
      ensures ok ==> n == |FirstBatch(old(rows))| && pubs == old(pubs) + FirstBatch(old(rows)) && rows == old(rows)[n..]
      ensures ok ==> n == (if |old(rows)| < 100 then |old(rows)| else 100) && pubs == old(pubs) + old(rows)[..n]
      ensures !ok ==> n == 0 && rows == old(rows)
      ensures failures == old(failures) + if ok then 0 else 1
    {
      var pending := FirstBatch(rows);
      var left := rows; // the table as the transaction sees it
      n := 0;
      for i := 0 to |pending|
        invariant rows == old(rows) && left == rows[i..] && pubs == old(pubs) + pending[..i] && n == 0
        invariant failures == old(failures)
      {
        var sent := Publish(pending[i]);
        assert pending == pending[..i] + [pending[i]] + pending[i + 1..];
        if !sent {
          return false, 0;
        }
        var deleted := Execute();
        if !deleted {
          return false, 0;
        }
        left := left[1..];
      }
      ok := Execute();
      if ok {
        rows, n := left, |pending|;
      }
    }

    /**
     Polls for a number of ticks; a dispatch that fails is tried again on the next one.  Without new rows, every hundred of
     them take one successful dispatch, and whatever the failures, all rows that are gone were published.
     */
    method Run(ticks: nat) returns (succeeded: nat)
      modifies this
      ensures succeeded + failures == ticks + old(failures) && old(pubs) <= pubs
      ensures rows == old(rows)[if 100 * succeeded < |old(rows)| then 100 * succeeded else |old(rows)|..]
      ensures forall k | k in old(rows) && k !in rows :: k in pubs[|old(pubs)|..]
      ensures forall k | k in pubs[|old(pubs)|..] :: k in old(rows)
    {
      succeeded := 0;
      ghost var was, sent := rows, pubs;
      for tick := 0 to ticks
        invariant succeeded + failures == tick + old(failures) && sent <= pubs
        invariant rows == was[if 100 * succeeded < |was| then 100 * succeeded else |was|..]
        invariant forall k | k in was && k !in rows :: k in pubs[|sent|..]
        invariant forall k | k in pubs[|sent|..] :: k in was
      {
        ghost var before, out := rows, pubs;
        var ok, n := DispatchPending();
        RoundTakes(was, before, rows, n, sent, out, pubs);
        if ok {
          succeeded := succeeded + 1;
        }
      }
    }
  }

  /** A round that takes the first `n` rows of what is left of `was` publishes them, and at most rows of `was`. */
  lemma RoundTakes(was: seq<Key>, before: seq<Key>, after: seq<Key>, n: nat, sent: seq<Key>, out: seq<Key>, pubs: seq<Key>)
    requires (forall k | k in before :: k in was) && n <= |before| && after == before[n..]
    requires sent <= out <= pubs <= out + FirstBatch(before)
    requires n > 0 ==> pubs == out + before[..n]
    ensures forall k | k in before && k !in after :: k in pubs[|sent|..]
    ensures forall k | k in out[|sent|..] :: k in pubs[|sent|..]
    ensures forall k | k in pubs[|sent|..] :: k in out[|sent|..] || k in was
  {
    forall k | k in before && k !in after ensures k in pubs[|sent|..] {
      var i :| 0 <= i < |before| && before[i] == k;
      assert i < n ==> pubs[|sent|..][|out| - |sent| + i] == k;
    }
    forall k | k in out[|sent|..] ensures k in pubs[|sent|..] {
      var i :| 0 <= i < |out[|sent|..]| && out[|sent|..][i] == k;
      assert pubs[|sent|..][i] == k;
    }
    forall k | k in pubs[|sent|..] ensures k in out[|sent|..] || k in was {
      var i :| 0 <= i < |pubs[|sent|..]| && pubs[|sent|..][i] == k;
      var j := |sent| + i;
      if j < |out| {
        assert out[|sent|..][i] == k;
      } else {
        assert (out + FirstBatch(before))[j] == k == before[j - |out|];
      }
    }
  }

  // ---- a dispatch is a run of the step relation ----

  /** Some moves lead from one plant to the other. */
  ghost predicate MovesTo(h: Handler, p: Plant, p': Plant) {
    exists ps :: MovePath(h, ps, p, p')
  }

  ghost predicate MovePath(h: Handler, ps: seq<Plant>, p: Plant, p': Plant) {
    && ps != [] && ps[0] == p && ps[|ps| - 1] == p'
    && forall i | 0 <= i < |ps| - 1 :: MovesSomehow(h, ps[i], ps[i + 1])
  }

  lemma OneMoreMove(h: Handler, p: Plant, p': Plant, m: Move, p'': Plant)
    requires MovesTo(h, p, p') && Moves(h, p', m, p'')
    ensures MovesTo(h, p, p'')
  {
    hide Moves;
    var ps :| MovePath(h, ps, p, p');
    var longer := ps + [p''];
    assert MovesSomehow(h, p', p'');
    forall i | 0 <= i < |longer| - 1 ensures MovesSomehow(h, longer[i], longer[i + 1]) {
      assert i < |ps| - 1 ==> MovesSomehow(h, ps[i], ps[i + 1]);
    }
    assert MovePath(h, longer, p, p'');
  }

  /** The plant after relay `r` claimed `keys` and published the first `n` of them. */
  function PublishedUpTo(p: Plant, r: nat, keys: seq<Key>, n: nat): Plant
    requires n <= |keys|
  {
    p.(relays := p.relays[r := Batch(keys, n)], pubs := p.pubs + keys[..n])
  }

  /** A relay claims its batch and publishes one row after the other. */
  lemma {:induction false} BatchGoesOut(h: Handler, p: Plant, r: nat, keys: seq<Key>, n: nat)
    requires r !in p.relays && NextRows(p.db.outbox, p.relays, keys) && n <= |keys|
    ensures MovesTo(h, p, PublishedUpTo(p, r, keys, n))
  {
    hide NextRows, MovesTo;
    if n == 0 {
      assert keys[..0] == [];
      Staying(h, p);
      OneMoreMove(h, p, p, Claim(r, keys), PublishedUpTo(p, r, keys, 0));
    } else {
      BatchGoesOut(h, p, r, keys, n - 1);
      assert p.pubs + keys[..n] == p.pubs + keys[..n - 1] + [keys[n - 1]];
      assert p.relays[r := Batch(keys, n - 1)][r := Batch(keys, n)] == p.relays[r := Batch(keys, n)];
      OneMoreMove(h, p, PublishedUpTo(p, r, keys, n - 1), Publish(r), PublishedUpTo(p, r, keys, n));
    }
  }

  lemma Staying(h: Handler, p: Plant)
    ensures MovesTo(h, p, p)
  {
    assert MovePath(h, [p], p, p);
  }

  /** The rows of the outbox that no open relay has locked, in id order. */
  ghost predicate Shows(outbox: map<Key, nat>, relays: map<nat, Batch>, rows: seq<Key>) {
    && (forall k :: k in rows <==> k in outbox && !Locked(relays, k))
    && forall i, j | 0 <= i < j < |rows| :: rows[i] != rows[j] && outbox[rows[i]] <= outbox[rows[j]]
  }

  /** The first of them are what a relay claims. */
  lemma FirstBatchIsNext(outbox: map<Key, nat>, relays: map<nat, Batch>, rows: seq<Key>)
    requires Shows(outbox, relays, rows)
    ensures NextRows(outbox, relays, FirstBatch(rows))
  {
    hide Locked;
    var keys := FirstBatch(rows);
    assert forall i | 0 <= i < |keys| :: keys[i] == rows[i];
    forall k | k in outbox && k !in keys && !Locked(relays, k)
      ensures |keys| == BATCH_SIZE && forall i | 0 <= i < |keys| :: outbox[keys[i]] <= outbox[k]
    {
      var j :| 0 <= j < |rows| && rows[j] == k;
    }
  }

  /** Without the batch, the rest of the rows is what the table shows. */
  lemma RestIsShown(outbox: map<Key, nat>, relays: map<nat, Batch>, rows: seq<Key>, n: nat)
    requires Shows(outbox, relays, rows) && n <= |rows|
    ensures Shows(outbox - KeySet(rows[..n]), relays, rows[n..])
  {
    hide Locked;
    forall k ensures k in rows[n..] <==> k in outbox && k !in rows[..n] && !Locked(relays, k) {
      assert rows == rows[..n] + rows[n..];
    }
  }

  /** What a dispatch in plant `p` leaves: `sent` published in all, and `left` of the rows it saw. */
  ghost predicate Dispatched(h: Handler, p: Plant, left: seq<Key>, sent: seq<Key>, p': Plant) {
    && MovesTo(h, p, p') && p'.relays == p.relays && p'.pubs == sent
    && Shows(p'.db.outbox, p'.relays, left) && p'.db == p.db.(outbox := p'.db.outbox)
  }

  /**
   One dispatch, however it ends, is a run of the step relation beside any other relays: `rows` is the table it sees, and
   `ok`, `left` and `sent` are its result as `DispatchPending` states it.
   */
  lemma {:induction false} DispatchIsARun(h: Handler, p: Plant, r: nat, rows: seq<Key>, ok: bool, left: seq<Key>,
                                           sent: seq<Key>) returns (p': Plant)
    requires r !in p.relays && Shows(p.db.outbox, p.relays, rows)
    requires p.pubs <= sent <= p.pubs + FirstBatch(rows)
    requires ok ==> sent == p.pubs + FirstBatch(rows) && left == rows[|FirstBatch(rows)|..]
    requires !ok ==> left == rows
    ensures Dispatched(h, p, left, sent, p')
  {
    hide NextRows, MovesTo, Shows;
    var keys := FirstBatch(rows);
    var n := |sent| - |p.pubs|;
    FirstBatchIsNext(p.db.outbox, p.relays, rows);
    BatchGoesOut(h, p, r, keys, n);
    ReleasedIsAsBefore(p.relays, r, Batch(keys, n));
    assert sent == p.pubs + keys[..n];
    var open := PublishedUpTo(p, r, keys, n);
    if ok {
      assert keys[..n] == keys == rows[..n];
      RestIsShown(p.db.outbox, p.relays, rows, n);
      p' := p.(db := p.db.(outbox := p.db.outbox - KeySet(keys)), pubs := sent);
      OneMoreMove(h, p, open, Delete(r), p');
    } else {
      p' := p.(pubs := sent);
      OneMoreMove(h, p, open, Drop(r), p');
    }
  }

  lemma ReleasedIsAsBefore(relays: map<nat, Batch>, r: nat, b: Batch)
    requires r !in relays
    ensures relays[r := b] - {r} == relays
  {
  }
}
