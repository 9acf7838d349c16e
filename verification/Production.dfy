/**
 What redelivery does to production.

 Every other stock command is harmless when it is handled again, because the order's hold on the beer tells.  A production
 command leaves no such trace, so each time it is handled it brews again.
 */
module Production {
  import opened Messages
  import opened AvailabilityAggregate
  import opened Reactions
  import opened Protocol
  import opened ProtocolInvariant
  import opened StockTheorems
  import opened Driving
  import opened SampleWorlds

  /** The worlds of a run and the steps that were taken between them. */
  ghost predicate Follows(ws: seq<World>, steps: seq<Step>) {
    && |ws| == |steps| + 1 && ws[0] == INITIAL
    && forall i | 0 <= i < |steps| :: Takes(ws[i], steps[i], ws[i + 1])
  }

  /** The step has a production command for beer `b` accepted. */
  predicate Brews(w: World, step: Step, b: BeerId) {
    step.Deliver? && step.m.UpdateAvailabilityDueToProductionOrder? && step.m.beer == b && StepReaction(w, step).Reaction?
  }

  /** The production commands for `b` that were accepted in the first `n` steps, once for each time. */
  function Handled(ws: seq<World>, steps: seq<Step>, b: BeerId, n: nat): seq<Message>
    requires n <= |steps| <= |ws|
  {
    if n == 0 then []
    else Handled(ws, steps, b, n - 1) + if Brews(ws[n - 1], steps[n - 1], b) then [steps[n - 1].m] else []
  }

  function Brewed(m: Message): int {
    if m.UpdateAvailabilityDueToProductionOrder? then m.quantity else 0
  }

  /** What the commands brew if each counts every time it comes. */
  function EachTime(ms: seq<Message>): int {
    if ms == [] then 0 else EachTime(ms[..|ms| - 1]) + Brewed(ms[|ms| - 1])
  }

  /** What they brew if each counts once, however often it comes. */
  function Once(ms: seq<Message>): int {
    if ms == [] then 0
    else
      var p, m := ms[..|ms| - 1], ms[|ms| - 1];
      Once(p) + if m in p then 0 else Brewed(m)
  }

  predicate NoneTwice(ms: seq<Message>) {
    forall i, j | 0 <= i < j < |ms| :: ms[i] != ms[j]
  }

  predicate AllPositive(ms: seq<Message>) {
    forall i | 0 <= i < |ms| :: Brewed(ms[i]) > 0
  }

  lemma {:induction false} OnceIsEachTimeIff(ms: seq<Message>)
    requires AllPositive(ms)
    ensures Once(ms) <= EachTime(ms) && (Once(ms) == EachTime(ms) <==> NoneTwice(ms))
  {
    if ms != [] {
      var p, n := ms[..|ms| - 1], |ms| - 1;
      assert forall i | 0 <= i < n :: p[i] == ms[i];
      OnceIsEachTimeIff(p);
      assert Brewed(ms[n]) > 0;
      if NoneTwice(ms) {
        assert ms[n] !in p;
      }
      if NoneTwice(p) && ms[n] !in p {
        forall i, j | 0 <= i < j < |ms| ensures ms[i] != ms[j] {
          assert ms[i] == p[i];
        }
      }
    }
  }

  lemma BrewingAdds(w: World, step: Step, w': World, b: BeerId)
    requires Takes(w, step, w')
    ensures TotalProduced(w', b) == TotalProduced(w, b) + if Brews(w, step, b) then Brewed(step.m) else 0
    ensures Brews(w, step, b) ==> Brewed(step.m) > 0
  {
    hide StockOf, OnTimeOut, Drive;
  }

  /** The books of the protocol count each handling. */
  lemma {:induction false} ProducedIsEachTime(ws: seq<World>, steps: seq<Step>, b: BeerId, n: nat)
    requires Follows(ws, steps) && n <= |steps|
    ensures TotalProduced(ws[n], b) == EachTime(Handled(ws, steps, b, n)) && AllPositive(Handled(ws, steps, b, n))
  {
    hide Takes, StepReaction, Brewed;
    if n > 0 {
      ProducedIsEachTime(ws, steps, b, n - 1);
      assert Takes(ws[n - 1], steps[n - 1], ws[n - 1 + 1]);
      BrewingAdds(ws[n - 1], steps[n - 1], ws[n], b);
      var p := Handled(ws, steps, b, n - 1);
      assert p + [] == p;
      if Brews(ws[n - 1], steps[n - 1], b) {
        assert (p + [steps[n - 1].m])[..|p|] == p;
      }
    }
  }

  /** What is available of a beer and what the orders holding it were charged. */
  ghost function Stocked(w: World, b: BeerId): int {
    StockOf(StockStream(w, b)).quantity + HeldSum(w, b, StockOf(StockStream(w, b)).held)
  }

  /**
   In every run without a breakable order, the stock is what the commands brew counted once each, exactly if none of them
   was handled twice.
   */
  lemma {:induction false} StockIsDistinctProductionIff(ws: seq<World>, steps: seq<Step>, b: BeerId)
    requires Follows(ws, steps) && Tame(ws[|steps|], b)
    ensures var ms := Handled(ws, steps, b, |steps|);
            Stocked(ws[|steps|], b) == Once(ms) <==> NoneTwice(ms)
  {
    hide Takes, Tame, Handled, Once, EachTime, NoneTwice, AllPositive, StockOf, HeldSum, Reachable;
    var w := ws[|steps|];
    StepsReach(ws, steps);
    StockIsConserved(w, b);
    ProducedIsEachTime(ws, steps, b, |steps|);
    OnceIsEachTimeIff(Handled(ws, steps, b, |steps|));
  }

  lemma StepsReach(ws: seq<World>, steps: seq<Step>)
    requires Follows(ws, steps)
    ensures Reachable(ws[|steps|])
  {
    hide Takes;
    forall i | 0 <= i < |ws| - 1 ensures Next(ws[i], ws[i + 1]) {
      assert Takes(ws[i], steps[i], ws[i + 1]);
    }
    assert Run(ws) && ws[|ws| - 1] == ws[|steps|];
  }

  /** Every reachable world is the last of such a run. */
  lemma {:induction false} RunHasSteps(ws: seq<World>) returns (steps: seq<Step>)
    requires Run(ws)
    ensures Follows(ws, steps)
  {
    hide Takes;
    if |ws| == 1 {
      steps := [];
    } else {
      var n := |ws| - 1;
      forall i | 0 <= i < n - 1 ensures Next(ws[..n][i], ws[..n][i + 1]) {
        assert Next(ws[i], ws[i + 1]);
      }
      assert ws[..n][0] == ws[0];
      var p := RunHasSteps(ws[..n]);
      assert Next(ws[n - 1], ws[n - 1 + 1]);
      var step :| Takes(ws[n - 1], step, ws[n]);
      steps := p + [step];
      forall i | 0 <= i < |steps| ensures Takes(ws[i], steps[i], ws[i + 1]) {
        if i < n - 1 {
          assert Takes(ws[..n][i], p[i], ws[..n][i + 1]);
        }
      }
    }
  }

  /** One command for five units, delivered twice, makes ten. */
  lemma {:induction false} SomeBrewCountsTwice() returns (w: World)
    ensures Reachable(w) && Stocked(w, 7) == 10
    ensures forall m | m in w.sent && m.UpdateAvailabilityDueToProductionOrder? :: m == BREWED && m.quantity == 5
  {
    hide Reachable;
    var v := Brewing();
    var first := AvailabilityUpdatedDueToProductionOrder(7, "ale", 5);
    var second := AvailabilityUpdatedDueToProductionOrder(7, "ale", 10);
    assert StockOf([first]).quantity == 5 && StockOf([first]).beer == 7;
    w := WritingStep(v, Deliver(BREWED), second);
    assert StockStream(w, 7) == [first] + [second];
    StockOfSnoc([first], second);
    assert StockOf([first]).held == {};
  }
}
