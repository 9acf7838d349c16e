/** Reading events whose shape has changed since they were stored: factories by type name, and chains of upcasters. */
module Registry {
  import Messages

  type Name = string
  type Payload = string

  /** What an upcaster makes of a stored payload. */
  datatype Upcast = Rewritten(name: Name, payload: Payload) | UpcastError

  datatype Rehydrated =
    | Event(name: Name, payload: Payload) | UnknownType(name: Name) | UpcastFailed(name: Name) | Malformed

  type Upcaster = Payload -> Upcast
  type Factory = Payload -> Rehydrated

  /** Where a read stands: at a type name with a payload, or at the name whose upcaster failed. */
  datatype Position = At(name: Name, payload: Payload) | Broken(name: Name)

  predicate Stopped(upcasters: map<Name, Upcaster>, at: Position) {
    at.Broken? || at.name !in upcasters
  }

  function Rewrite(upcasters: map<Name, Upcaster>, at: Position): Position
    requires !Stopped(upcasters, at)
  {
    match upcasters[at.name](at.payload)
    case Rewritten(name, payload) => At(name, payload)
    case UpcastError => Broken(at.name)
  }

  /** The position after at most `n` rewrites. */
  function Follow(upcasters: map<Name, Upcaster>, at: Position, n: nat): Position
    decreases n
  {
    if n == 0 || Stopped(upcasters, at) then at else Follow(upcasters, Rewrite(upcasters, at), n - 1)
  }

  /** The chain that starts here comes to an end. */
  ghost predicate Ends(upcasters: map<Name, Upcaster>, at: Position) {
    exists n: nat :: Stopped(upcasters, Follow(upcasters, at, n))
  }

  function Rehydrate(factories: map<Name, Factory>, at: Position): Rehydrated {
    match at
    case Broken(name) => UpcastFailed(name)
    case At(name, payload) => if name in factories then factories[name](payload) else UnknownType(name)
  }

  class EventRegistry {
    var factories: map<Name, Factory>
    var upcasters: map<Name, Upcaster>

    constructor ()
      ensures factories == map[] && upcasters == map[]
    {
      factories, upcasters := map[], map[];
    }

    method RegisterEvent(name: Name, factory: Factory)
      modifies this`factories
      ensures factories == old(factories)[name := factory]
    {
      factories := factories[name := factory];
    }

    method RegisterUpcaster(name: Name, upcaster: Upcaster)
      modifies this`upcasters
      ensures upcasters == old(upcasters)[name := upcaster]
    {
      upcasters := upcasters[name := upcaster];
    }

    /**
     Follows the chain and rehydrates at its end.  `rounds` is how many rewrites the caller waits for: with no answer by
     then the loop is still rewriting, and a chain without an end never gives one.
     */
    method Deserialize(name: Name, payload: Payload, rounds: nat) returns (r: Messages.Option<Rehydrated>)
      ensures var end := Follow(upcasters, At(name, payload), rounds);
              r == if Stopped(upcasters, end) then Messages.Some(Rehydrate(factories, end)) else Messages.None
      ensures forall names, payloads | Evolves(upcasters, names, payloads) && names[0] == name && payloads[0] == payload ::
                var n := |names| - 1;
                && (n <= rounds && names[n] !in upcasters ==>
                      r == Messages.Some(if names[n] in factories then factories[names[n]](payloads[n])
                                         else UnknownType(names[n])))
                && (n < rounds && names[n] in upcasters && upcasters[names[n]](payloads[n]).UpcastError? ==>
                      r == Messages.Some(UpcastFailed(names[n])))
    {
      ghost var start := At(name, payload);
      var at, broken, left := At(name, payload), false, rounds;
      while at.name in upcasters && !broken && left > 0
        invariant at.At? && 0 <= left <= rounds
        invariant Follow(upcasters, start, rounds)
                  == Follow(upcasters, if broken then Broken(at.name) else at, left)
        decreases left
      {
        match upcasters[at.name](at.payload) {
          case Rewritten(newName, newPayload) =>
            at := At(newName, newPayload);
          case UpcastError =>
            broken := true;
        }
        left := left - 1;
      }
      r := if broken then Messages.Some(UpcastFailed(at.name))
           else if at.name in upcasters then Messages.None
           else if at.name in factories then Messages.Some(factories[at.name](at.payload))
           else Messages.Some(UnknownType(at.name));
      forall names, payloads | Evolves(upcasters, names, payloads) && names[0] == name && payloads[0] == payload
        ensures var n := |names| - 1;
                && (n <= rounds && names[n] !in upcasters ==>
                      Follow(upcasters, start, rounds) == At(names[n], payloads[n]))
                && (n < rounds && names[n] in upcasters && upcasters[names[n]](payloads[n]).UpcastError? ==>
                      Follow(upcasters, start, rounds) == Broken(names[n]))
      {
        var n := |names| - 1;
        EvolutionIsFollowed(upcasters, names, payloads, if n <= rounds then rounds - n else 0);
        EvolutionIsFollowed(upcasters, names, payloads, if n < rounds then rounds - n - 1 else 0);
      }
    }
  }

  /** What a caller gets does not depend on how long it would have waited. */
  lemma AnswersAgree(upcasters: map<Name, Upcaster>, at: Position, m: nat, n: nat)
    requires m <= n && Stopped(upcasters, Follow(upcasters, at, m))
    ensures Follow(upcasters, at, n) == Follow(upcasters, at, m)
  {
    FollowComposes(upcasters, at, m, n - m);
  }

  /** Each upcaster makes the next name and payload out of the one before. */
  predicate Evolves(upcasters: map<Name, Upcaster>, names: seq<Name>, payloads: seq<Payload>) {
    && |names| == |payloads| > 0
    && forall i | 0 <= i < |names| - 1 ::
         names[i] in upcasters && upcasters[names[i]](payloads[i]) == Rewritten(names[i + 1], payloads[i + 1])
  }

  /** Reading follows such an evolution, and stops at a name without an upcaster or at the first failure. */
  lemma {:induction false} EvolutionIsFollowed(upcasters: map<Name, Upcaster>, names: seq<Name>, payloads: seq<Payload>,
                                                m: nat)
    requires Evolves(upcasters, names, payloads)
    ensures var n, start := |names| - 1, At(names[0], payloads[0]);
            && Follow(upcasters, start, n) == At(names[n], payloads[n])
            && (names[n] !in upcasters ==> Follow(upcasters, start, n + m) == At(names[n], payloads[n]))
            && (names[n] in upcasters && upcasters[names[n]](payloads[n]).UpcastError? ==>
                  Follow(upcasters, start, n + 1 + m) == Broken(names[n]))
    decreases |names|
  {
    var n, start := |names| - 1, At(names[0], payloads[0]);
    if n > 0 {
      assert Evolves(upcasters, names[1..], payloads[1..]);
      EvolutionIsFollowed(upcasters, names[1..], payloads[1..], m);
      assert Follow(upcasters, start, n) == Follow(upcasters, At(names[1], payloads[1]), n - 1);
    }
    FollowComposes(upcasters, start, n, m);
    FollowComposes(upcasters, start, n, m + 1);
    var last := At(names[n], payloads[n]);
    if names[n] in upcasters && upcasters[names[n]](payloads[n]).UpcastError? {
      assert Follow(upcasters, last, m + 1) == Follow(upcasters, Rewrite(upcasters, last), m);
    }
  }

  /** Following m + n rewrites is following m and then n: evolution steps compose. */
  lemma {:induction false} FollowComposes(upcasters: map<Name, Upcaster>, at: Position, m: nat, n: nat)
    ensures Follow(upcasters, at, m + n) == Follow(upcasters, Follow(upcasters, at, m), n)
    decreases m
  {
    if m > 0 && !Stopped(upcasters, at) {
      FollowComposes(upcasters, Rewrite(upcasters, at), m - 1, n);
    }
  }

  // ---- which chains end ----

  /** Every rewrite leads to a name of smaller rank. */
  ghost predicate Descends(upcasters: map<Name, Upcaster>, rank: Name -> nat) {
    forall at: Position | !Stopped(upcasters, at) && Rewrite(upcasters, at).At? ::
      rank(Rewrite(upcasters, at).name) < rank(at.name)
  }

  /** If names can be ranked so that upcasters only lead downwards, every stored event can be read. */
  lemma {:induction false} RankedChainsEnd(upcasters: map<Name, Upcaster>, rank: Name -> nat, at: Position)
    requires Descends(upcasters, rank)
    ensures Ends(upcasters, at)
    decreases if at.At? then rank(at.name) + 1 else 0
  {
    if Stopped(upcasters, at) {
      assert Stopped(upcasters, Follow(upcasters, at, 0));
    } else {
      var next := Rewrite(upcasters, at);
      RankedChainsEnd(upcasters, rank, next);
      var n: nat :| Stopped(upcasters, Follow(upcasters, next, n));
      assert Follow(upcasters, at, n + 1) == Follow(upcasters, next, n);
    }
  }

  /** A rank that falls with every rewrite of the chain that starts here. */
  ghost predicate RankFalls(upcasters: map<Name, Upcaster>, at: Position, rank: Position -> nat) {
    forall n: nat | !Stopped(upcasters, Follow(upcasters, at, n)) ::
      rank(Follow(upcasters, at, n + 1)) < rank(Follow(upcasters, at, n))
  }

  lemma {:induction false} FallingRankEnds(upcasters: map<Name, Upcaster>, at: Position, rank: Position -> nat, n: nat)
    requires RankFalls(upcasters, at, rank) && !Stopped(upcasters, Follow(upcasters, at, n))
    ensures rank(Follow(upcasters, at, n + 1)) + n + 1 <= rank(at)
  {
    if n > 0 {
      if Stopped(upcasters, Follow(upcasters, at, n - 1)) {
        AnswersAgree(upcasters, at, n - 1, n);
      }
      FallingRankEnds(upcasters, at, rank, n - 1);
    } else {
      assert Follow(upcasters, at, 0) == at;
    }
  }

  /** How many rewrites are left before the end. */
  ghost function Distance(upcasters: map<Name, Upcaster>, at: Position): nat {
    if Ends(upcasters, at) then
      FewestSteps(upcasters, at);
      var n: nat :| IsDistance(upcasters, at, n);
      n
    else 0
  }

  ghost predicate IsDistance(upcasters: map<Name, Upcaster>, at: Position, n: nat) {
    && Stopped(upcasters, Follow(upcasters, at, n))
    && forall m: nat | m < n :: !Stopped(upcasters, Follow(upcasters, at, m))
  }

  lemma FewestSteps(upcasters: map<Name, Upcaster>, at: Position)
    requires Ends(upcasters, at)
    ensures exists n: nat :: IsDistance(upcasters, at, n)
  {
    var n: nat :| Stopped(upcasters, Follow(upcasters, at, n));
    var m: nat := 0;
    while !Stopped(upcasters, Follow(upcasters, at, m))
      invariant m <= n && forall k: nat | k < m :: !Stopped(upcasters, Follow(upcasters, at, k))
      decreases n - m
    {
      m := m + 1;
    }
    assert IsDistance(upcasters, at, m);
  }

  lemma RewritingComesCloser(upcasters: map<Name, Upcaster>, at: Position)
    requires Ends(upcasters, at) && !Stopped(upcasters, at)
    ensures Ends(upcasters, Rewrite(upcasters, at))
    ensures Distance(upcasters, Rewrite(upcasters, at)) < Distance(upcasters, at)
  {
    var next, n := Rewrite(upcasters, at), Distance(upcasters, at);
    assert IsDistance(upcasters, at, n) && Follow(upcasters, at, 0) == at;
    assert Follow(upcasters, at, n) == Follow(upcasters, next, n - 1);
    var m := Distance(upcasters, next);
    assert IsDistance(upcasters, next, m);
  }

  /** A chain ends exactly if some rank falls along it. */
  lemma {:induction false} EndsIffRankFalls(upcasters: map<Name, Upcaster>, at: Position)
    ensures Ends(upcasters, at) <==> exists rank :: RankFalls(upcasters, at, rank)
  {
    if Ends(upcasters, at) {
      var rank := p => Distance(upcasters, p);
      forall n: nat | !Stopped(upcasters, Follow(upcasters, at, n))
        ensures rank(Follow(upcasters, at, n + 1)) < rank(Follow(upcasters, at, n))
      {
        EndStaysAhead(upcasters, at, n);
        RewritingComesCloser(upcasters, Follow(upcasters, at, n));
        FollowComposes(upcasters, at, n, 1);
        assert Follow(upcasters, Follow(upcasters, at, n), 1) == Rewrite(upcasters, Follow(upcasters, at, n));
      }
      assert RankFalls(upcasters, at, rank);
    }
    if rank :| RankFalls(upcasters, at, rank) {
      if !Stopped(upcasters, Follow(upcasters, at, rank(at))) {
        FallingRankEnds(upcasters, at, rank, rank(at));
      }
    }
  }

  lemma EndStaysAhead(upcasters: map<Name, Upcaster>, at: Position, n: nat)
    requires Ends(upcasters, at)
    ensures Ends(upcasters, Follow(upcasters, at, n))
  {
    var m: nat :| Stopped(upcasters, Follow(upcasters, at, m));
    FollowComposes(upcasters, at, n, m);
    FollowComposes(upcasters, at, m, n);
  }

  /** Names whose upcasters always succeed and lead to one of them again, as a name upcast to itself. */
  ghost predicate Trap(upcasters: map<Name, Upcaster>, names: set<Name>) {
    forall at: Position | at.name in names :: at.name in upcasters
      && (at.At? ==> Rewrite(upcasters, at).At? && Rewrite(upcasters, at).name in names)
  }

  lemma {:induction false} TrappedChainsGoOn(upcasters: map<Name, Upcaster>, names: set<Name>, at: Position, n: nat)
    requires Trap(upcasters, names) && at.At? && at.name in names
    ensures !Stopped(upcasters, Follow(upcasters, at, n))
    decreases n
  {
    if n > 0 {
      TrappedChainsGoOn(upcasters, names, Rewrite(upcasters, at), n - 1);
    }
  }

  /** A chain that enters such names has no end: reading that event would never return. */
  lemma TrappedChainsDoNotEnd(upcasters: map<Name, Upcaster>, names: set<Name>, at: Position, m: nat)
    requires Trap(upcasters, names)
    requires var entered := Follow(upcasters, at, m); entered.At? && entered.name in names
    ensures !Ends(upcasters, at)
  {
    forall n: nat ensures !Stopped(upcasters, Follow(upcasters, at, n)) {
      if Stopped(upcasters, Follow(upcasters, at, n)) {
        TrappedChainsGoOn(upcasters, names, Follow(upcasters, at, m), n);
        FollowComposes(upcasters, at, m, n);
        FollowComposes(upcasters, at, n, m);
      }
    }
  }

  // ---- registering another upcaster ----

  /** The chain never stands at this name. */
  ghost predicate Avoids(upcasters: map<Name, Upcaster>, at: Position, name: Name) {
    forall n: nat :: Follow(upcasters, at, n).At? ==> Follow(upcasters, at, n).name != name
  }

  /** An upcaster registered for a name off the chain changes nothing about what the chain reads. */
  lemma {:induction false} OffChainIsIrrelevant(upcasters: map<Name, Upcaster>, at: Position, name: Name, u: Upcaster,
                                                n: nat)
    requires Avoids(upcasters, at, name)
    ensures Follow(upcasters[name := u], at, n) == Follow(upcasters, at, n)
    ensures Stopped(upcasters[name := u], Follow(upcasters, at, n)) <==> Stopped(upcasters, Follow(upcasters, at, n))
    decreases n
  {
    assert Follow(upcasters, at, 0) == at;
    if n > 0 && !Stopped(upcasters, at) {
      var next := Rewrite(upcasters, at);
      forall k: nat ensures Follow(upcasters, next, k).At? ==> Follow(upcasters, next, k).name != name {
        assert Follow(upcasters, at, k + 1) == Follow(upcasters, next, k);
      }
      OffChainIsIrrelevant(upcasters, next, name, u, n - 1);
    }
  }
}
