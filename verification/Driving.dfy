/** Runs in which nothing is lost: worlds after a list of steps, and paths through the step relation. */
module Driving {
  import opened Messages
  import opened Reactions
  import opened EventStore
  import opened Handlers
  import opened Protocol

  /** The world after a step whose messages all got through. */
  function After(w: World, step: Step): World {
    match StepReaction(w, step)
    case Refusal(_) => w
    case Reaction(events, _) =>
      World(Grow(w.streams, StepTarget(step), events),
            w.sent + (set m | m in Announcements(StepReaction(w, step))),
            ProducedAfter(w, step))
  }

  function AfterAll(w: World, steps: seq<Step>): World
    decreases |steps|
  {
    if steps == [] then w else AfterAll(After(w, steps[0]), steps[1..])
  }

  /** Every step can be taken when its turn comes. */
  predicate Possible(w: World, steps: seq<Step>)
    decreases |steps|
  {
    steps != [] ==> Enabled(w, steps[0]) && Possible(After(w, steps[0]), steps[1..])
  }

  lemma AfterIsTaken(w: World, step: Step)
    requires Enabled(w, step)
    ensures Takes(w, step, After(w, step))
  {
    hide StepReaction, ProducedAfter, Announcements;
  }

  lemma ReachableGoesOn(w: World, w': World)
    requires Reachable(w) && Next(w, w')
    ensures Reachable(w')
  {
    hide Next;
    var ws :| Run(ws) && ws[|ws| - 1] == w;
    var longer := ws + [w'];
    forall i | 0 <= i < |longer| - 1 ensures Next(longer[i], longer[i + 1]) {
      assert i < |ws| - 1 ==> Next(ws[i], ws[i + 1]);
    }
    assert Run(longer) && longer[|longer| - 1] == w';
  }

  lemma {:induction false} PossibleIsReachable(w: World, steps: seq<Step>)
    requires Reachable(w) && Possible(w, steps)
    ensures Reachable(AfterAll(w, steps))
    decreases |steps|
  {
    hide Reachable, Takes, Enabled, After;
    if steps != [] {
      AfterIsTaken(w, steps[0]);
      assert Next(w, After(w, steps[0]));
      ReachableGoesOn(w, After(w, steps[0]));
      PossibleIsReachable(After(w, steps[0]), steps[1..]);
    }
  }

  lemma {:induction false} StepsCompose(w: World, a: seq<Step>, b: seq<Step>)
    ensures AfterAll(w, a + b) == AfterAll(AfterAll(w, a), b)
    ensures Possible(w, a) && Possible(AfterAll(w, a), b) ==> Possible(w, a + b)
    decreases |a|
  {
    hide Enabled, After;
    if a == [] {
      assert a + b == b;
    } else {
      assert (a + b)[0] == a[0] && (a + b)[1..] == a[1..] + b;
      StepsCompose(After(w, a[0]), a[1..], b);
    }
  }

  lemma TwoAtOnce(w: World, steps: seq<Step>)
    requires |steps| == 2
    ensures AfterAll(w, steps) == After(After(w, steps[0]), steps[1])
    ensures Possible(w, steps) <==> Enabled(w, steps[0]) && Enabled(After(w, steps[0]), steps[1])
  {
    hide After, Enabled;
    var rest := steps[1..];
    assert rest[0] == steps[1] && rest[1..] == [];
    assert AfterAll(w, steps) == AfterAll(After(w, steps[0]), rest);
    assert Possible(w, steps) <==> Enabled(w, steps[0]) && Possible(After(w, steps[0]), rest);
  }

  lemma ThreeAtOnce(w: World, steps: seq<Step>)
    requires |steps| == 3
    ensures AfterAll(w, steps) == After(After(After(w, steps[0]), steps[1]), steps[2])
    ensures Possible(w, steps) <==> && Enabled(w, steps[0]) && Enabled(After(w, steps[0]), steps[1])
                                    && Enabled(After(After(w, steps[0]), steps[1]), steps[2])
  {
    hide After, Enabled;
    var rest := steps[1..];
    assert rest[0] == steps[1] && rest[1..][0] == steps[2] && rest[1..][1..] == [];
    assert AfterAll(w, steps) == AfterAll(After(w, steps[0]), rest);
    assert AfterAll(After(w, steps[0]), rest) == AfterAll(After(After(w, steps[0]), rest[0]), rest[1..]);
    assert Possible(w, steps) <==> Enabled(w, steps[0]) && Possible(After(w, steps[0]), rest);
    assert Possible(After(w, steps[0]), rest)
      <==> Enabled(After(w, steps[0]), rest[0]) && Possible(After(After(w, steps[0]), rest[0]), rest[1..]);
  }

  lemma NoSteps(w: World)
    ensures AfterAll(w, []) == w && Possible(w, [])
  {
  }

  lemma FirstStepIsPossible(v: World, step: Step)
    requires Enabled(v, step)
    ensures Possible(v, [step]) && AfterAll(v, [step]) == After(v, step)
  {
    hide Enabled, After;
  }

  /** The messages that a bus has carried. */
  ghost function Sent(ms: seq<Message>): set<Message> {
    set m | m in ms
  }

  /**
   A handler that performed its reaction in a reachable world left a reachable world behind, whether or not its sending
   was cut short.
   */
  lemma PerformedIsReachable(w: World, after: Streams, before: seq<Message>, sent: seq<Message>, m: Message, r: Outcome)
    requires Reachable(w) && w.sent == Sent(before) && m in before
    requires Performed(w.streams, after, before, sent, Target(m), React(w.streams, m), r)
    ensures Reachable(World(after, Sent(sent), ProducedAfter(w, Deliver(m))))
  {
    hide Reachable, React, ProducedAfter, Performed, Takes;
    var w' := World(after, Sent(sent), ProducedAfter(w, Deliver(m)));
    PerformedIsAStep(w, w', before, sent, m, r);
    assert Next(w, w');
    ReachableGoesOn(w, w');
  }

  // ---- paths ----

  ghost predicate IsPath(ws: seq<World>, w: World, w': World) {
    && ws != [] && ws[0] == w && ws[|ws| - 1] == w'
    && forall i | 0 <= i < |ws| - 1 :: Next(ws[i], ws[i + 1])
  }

  /** Some sequence of steps leads from one world to the other; messages may be lost on the way. */
  ghost predicate LeadsTo(w: World, w': World) {
    exists ws :: IsPath(ws, w, w')
  }

  lemma StayingLeads(w: World)
    ensures LeadsTo(w, w)
  {
    assert IsPath([w], w, w);
  }

  lemma LeadsFurther(w: World, w': World, w'': World)
    requires LeadsTo(w, w') && Next(w', w'')
    ensures LeadsTo(w, w'')
  {
    hide Next;
    var ws :| IsPath(ws, w, w');
    var longer := ws + [w''];
    forall i | 0 <= i < |longer| - 1 ensures Next(longer[i], longer[i + 1]) {
      assert i < |ws| - 1 ==> Next(ws[i], ws[i + 1]);
    }
    assert IsPath(longer, w, w'');
  }

  lemma {:induction false} LeadsThrough(w: World, m: World, w': World, ws: seq<World>)
    requires LeadsTo(w, m) && IsPath(ws, m, w')
    ensures LeadsTo(w, w')
    decreases |ws|
  {
    hide Next, LeadsTo;
    if |ws| > 1 {
      var n := |ws| - 1;
      forall i | 0 <= i < n - 1 ensures Next(ws[..n][i], ws[..n][i + 1]) {
        assert Next(ws[i], ws[i + 1]);
      }
      LeadsThrough(w, m, ws[n - 1], ws[..n]);
      assert Next(ws[n - 1], ws[n - 1 + 1]);
      LeadsFurther(w, ws[n - 1], w');
    }
  }

  lemma LeadsAllTheWay(w: World, m: World, w': World)
    requires LeadsTo(w, m) && LeadsTo(m, w')
    ensures LeadsTo(w, w')
  {
    hide IsPath;
    var ws :| IsPath(ws, m, w');
    LeadsThrough(w, m, w', ws);
  }

  lemma {:induction false} PossibleLeads(w: World, steps: seq<Step>)
    requires Possible(w, steps)
    ensures LeadsTo(w, AfterAll(w, steps))
    decreases |steps|
  {
    hide LeadsTo, Takes, Enabled, After;
    StayingLeads(w);
    if steps == [] {
      NoSteps(w);
    } else {
      var w1 := After(w, steps[0]);
      AfterIsTaken(w, steps[0]);
      assert Next(w, w1);
      LeadsFurther(w, w, w1);
      PossibleLeads(w1, steps[1..]);
      LeadsAllTheWay(w, w1, AfterAll(w1, steps[1..]));
    }
  }

  lemma {:induction false} PathIsReachable(w: World, w': World, ws: seq<World>)
    requires Reachable(w) && IsPath(ws, w, w')
    ensures Reachable(w')
    decreases |ws|
  {
    hide Reachable, Next;
    if |ws| > 1 {
      var n := |ws| - 1;
      forall i | 0 <= i < n - 1 ensures Next(ws[..n][i], ws[..n][i + 1]) {
        assert Next(ws[i], ws[i + 1]);
      }
      PathIsReachable(w, ws[n - 1], ws[..n]);
      assert Next(ws[n - 1], ws[n - 1 + 1]);
      ReachableGoesOn(ws[n - 1], w');
    }
  }
}
