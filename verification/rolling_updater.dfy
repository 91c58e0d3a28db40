/**
 The rolling update of a replication controller (pykube/rolling_updater.py):
 a new controller is created with zero replicas, then the new one is scaled
 up and the old one down, within a surge budget and an availability budget,
 until the new one has the desired count and the old one none; then the old
 one is deleted.

 Everything the server does is an input: the status of each request, the
 documents it returns, and the pod listings the readiness poll sees. The
 loop has no deadline in the library, so the model consumes a finite
 sequence of iterations and reports `Stalled` when they run out.
 */
module RollingUpdater {
  import opened Errors
  import opened Json
  import Decimal
  import opened Objects
  import Http
  import Mixins
  import Query

  /** The two budgets given to the constructor; `max_unavailable` defaults to 0, `max_surge` to 1. */
  datatype Budgets = Budgets(maxUnavailable: Json, maxSurge: Json)

  const DefaultBudgets: Budgets := Budgets(JInt(0), JInt(1))

  /** The exact ceiling of `n / d`. */
  function CeilDiv(n: int, d: int): (r: int)
    requires d > 0
    ensures d * (r - 1) < n <= d * r
    ensures n >= 0 ==> r >= 0
  {
    -((-n) / d)
  }

  lemma ProductNonNegative(a: int, b: int)
    requires a >= 0 && b >= 0
    ensures a * b >= 0
  {
  }

  /** `s.replace("%", "")`. */
  function RemovePercent(s: string): (r: string)
    ensures '%' !in r
    ensures '%' !in s ==> r == s
  {
    if |s| == 0 then ""
    else (if s[0] == '%' then "" else [s[0]]) + RemovePercent(s[1..])
  }

  /**
   `extract_max_value(field, name, value)`: an integer budget is taken as it
   is; a string is a percentage of `value` (every `%` removed, then parsed),
   rounded up; both must not be negative, and no other type is accepted.
   */
  function ExtractMaxValue(field: Json, name: string, value: int): (r: Result<int>)
    ensures field.JInt? ==> r == (if field.i >= 0 then Ok(field.i) else Err(AssertionError(name + " must be >= 0")))
    ensures !field.JInt? && !field.JStr? ==> r.Err? && r.error.AssertionError?
    ensures field.JStr? ==> (r.Err? && r.error.ValueError? <==> !Decimal.WellFormedNumeral(RemovePercent(field.s)))
    ensures field.JStr? && r.Ok? ==>
              var v := Decimal.ParseInt(RemovePercent(field.s)).value;
              v >= 0 && 100 * (r.value - 1) < value * v <= 100 * r.value
    ensures r.Ok? && value >= 0 ==> r.value >= 0
  {
    match field
    case JInt(n) => if n >= 0 then Ok(n) else Err(AssertionError(name + " must be >= 0"))
    case JStr(s) =>
      var v :- Decimal.ParseInt(RemovePercent(s));
      if v >= 0 then
        var share := value * v;
        assert value >= 0 ==> share >= 0 by {
          if value >= 0 {
            ProductNonNegative(value, v);
          }
        }
        Ok(CeilDiv(share, 100))
      else Err(AssertionError(name + " must be >= 0"))
    case _ => Err(AssertionError("field is not an int or str"))
  }

  lemma {:induction false} RemovePercentAppend(s: string)
    requires '%' !in s
    ensures RemovePercent(s + "%") == s
    decreases |s|
  {
    if |s| == 0 {
      assert RemovePercent("%"[1..]) == "";
    } else {
      assert (s + "%")[1..] == s[1..] + "%";
      RemovePercentAppend(s[1..]);
      assert [s[0]] + s[1..] == s;
    }
  }

  /** `"p%"` with `p >= 0` is `p` percent of `value`, rounded up. */
  lemma PercentBudget(p: nat, name: string, value: int)
    ensures ExtractMaxValue(JStr(Decimal.IntToString(p) + "%"), name, value) == Ok(CeilDiv(value * p, 100))
  {
    var digits := Decimal.IntToString(p);
    assert '%' !in digits by {
      assert forall i :: 0 <= i < |digits| ==> Decimal.IsDigit(digits[i]);
    }
    RemovePercentAppend(digits);
    Decimal.ParseIntOfString(p);
  }

  /** A negative percentage fails the assertion. */
  lemma NegativePercentBudget(p: nat, name: string, value: int)
    requires p > 0
    ensures ExtractMaxValue(JStr(Decimal.IntToString(-(p as int)) + "%"), name, value) == Err(AssertionError(name + " must be >= 0"))
  {
    var digits := Decimal.IntToString(-(p as int));
    assert digits == "-" + Decimal.NatToString(p);
    assert '%' !in digits by {
      assert forall i :: 1 <= i < |digits| ==> Decimal.IsDigit(digits[i]);
      assert digits[0] == '-';
    }
    RemovePercentAppend(digits);
    Decimal.ParseIntOfString(-(p as int));
  }

  /**
   The numbers `update` fixes before the loop: the new controller's
   requested count, the old controller's count, and the two resolved budgets.
   */
  datatype Plan = Plan(desired: int, original: int, maxSurge: int, maxUnavailable: int)

  /** `min_available`: the old count less the unavailability budget. */
  function MinAvailable(p: Plan): int {
    p.original - p.maxUnavailable
  }

  /** The replica counts of the new and the old controller as the updater holds them. */
  datatype Counts = Counts(newReplicas: int, oldReplicas: int)

  /** The loop's exit condition. */
  predicate Done(p: Plan, s: Counts) {
    s.newReplicas == p.desired && s.oldReplicas == 0
  }

  /** The count a step leaves, and whether it called `scale()`. */
  datatype Step = Step(replicas: int, scaled: bool)

  /**
   `scale_up`: grow the new controller as far as the surge budget allows, or
   all the way once the old one is at zero, never beyond `desired`.
   */
  function ScaleUp(p: Plan, s: Counts): (r: Step)
    ensures s.newReplicas == p.desired ==> r == Step(s.newReplicas, false)
    ensures s.oldReplicas != 0 && s.oldReplicas + s.newReplicas >= p.original + p.maxSurge ==> r == Step(s.newReplicas, false)
    ensures s.oldReplicas == 0 && s.newReplicas < p.desired ==> r == Step(p.desired, true)
    ensures !r.scaled ==> r.replicas == s.newReplicas
    ensures r.scaled ==> r.replicas <= p.desired
    ensures s.newReplicas <= p.desired ==> s.newReplicas <= r.replicas <= p.desired
    ensures r.scaled && s.newReplicas < p.desired ==> s.newReplicas < r.replicas
    ensures s.oldReplicas != 0 && r.scaled ==> s.oldReplicas + r.replicas <= p.original + p.maxSurge
  {
    if s.newReplicas == p.desired then Step(s.newReplicas, false)
    else
      var increment :=
        if s.oldReplicas == 0 then p.desired - s.newReplicas
        else (p.original + p.maxSurge) - (s.oldReplicas + s.newReplicas);
      if increment <= 0 then Step(s.newReplicas, false)
      else Step(if p.desired < s.newReplicas + increment then p.desired else s.newReplicas + increment, true)
  }

  /**
   `scale_down` once the poll has reported `newAvailable` ready pods of the
   new controller: shrink the old controller as far as availability allows,
   and all the way once the new one is complete and fully ready.
   */
  function ScaleDown(p: Plan, s: Counts, newAvailable: int): (r: Step)
    ensures s.oldReplicas == 0 ==> r == Step(0, false)
    ensures s.oldReplicas + newAvailable <= MinAvailable(p) ==> r == Step(s.oldReplicas, false)
    ensures !r.scaled ==> r.replicas == s.oldReplicas
    ensures r.scaled ==> 0 <= r.replicas
    ensures r.scaled && s.oldReplicas > 0 ==> r.replicas < s.oldReplicas
    ensures r.scaled && !(s.newReplicas == p.desired && newAvailable == p.desired) ==>
              r.replicas + newAvailable >= MinAvailable(p) &&
              r.replicas == (if MinAvailable(p) - newAvailable < 0 then 0 else MinAvailable(p) - newAvailable)
    ensures s.oldReplicas != 0 && s.oldReplicas + newAvailable > MinAvailable(p) ==> r.scaled
    ensures r.scaled && s.newReplicas == p.desired && newAvailable == p.desired ==> r.replicas == 0
  {
    if s.oldReplicas == 0 then Step(0, false)
    else
      var decrement := s.oldReplicas + newAvailable - MinAvailable(p);
      if decrement <= 0 then Step(s.oldReplicas, false)
      else
        var lowered := if s.oldReplicas - decrement < 0 then 0 else s.oldReplicas - decrement;
        Step(if s.newReplicas == p.desired && newAvailable == p.desired then 0 else lowered, true)
  }

  /** The pod listings one round of the readiness poll receives, for the old and the new controller. */
  datatype Round = Round(oldPods: Response, newPods: Response)

  /** What the server does during one pass of the main loop. */
  datatype Iteration = Iteration(scaleUp: Mixins.ScaleEnv, rounds: seq<Round>, scaleDown: Mixins.ScaleEnv)

  /** How many of `pods` are ready; the first `ready` that raises decides the error. */
  function CountReady(pods: seq<ApiObject>): (r: Result<nat>)
    ensures r.Ok? <==> forall i :: 0 <= i < |pods| ==> PodReady(pods[i]).Ok?
    ensures r.Ok? ==> r.value <= |pods|
    ensures r.Ok? ==> (r.value == 0 <==> forall i :: 0 <= i < |pods| ==> PodReady(pods[i]) == Ok(false))
  {
    if |pods| == 0 then Ok(0)
    else
      var ready :- PodReady(pods[0]);
      var rest :- CountReady(pods[1..]);
      Ok((if ready then 1 else 0) + rest)
  }

  /** The ready pods in one listing response. */
  function ReadyIn(resp: Response): Result<nat> {
    var pods :- Query.QueryResults(Pod, resp);
    CountReady(pods)
  }

  /** The poll's result: ready pods credited to the old and the new controller, and the rounds it took. */
  datatype Readiness = Readiness(oldReady: nat, newReady: nat, rounds: nat)

  /** The counts one round credits to the old and the new controller. */
  predicate Credits(oldName: Json, newName: Json, round: Round, oldReady: nat, newReady: nat) {
    && ReadyIn(round.oldPods).Ok? && ReadyIn(round.newPods).Ok?
    && (!PyEq(newName, oldName) ==> oldReady == ReadyIn(round.oldPods).value && newReady == ReadyIn(round.newPods).value)
    && (PyEq(newName, oldName) ==> oldReady == ReadyIn(round.oldPods).value + ReadyIn(round.newPods).value && newReady == 0)
  }

  /** A round in which neither listing has a ready pod. */
  predicate Idle(round: Round) {
    ReadyIn(round.oldPods) == Ok(0) && ReadyIn(round.newPods) == Ok(0)
  }

  /**
   One round of the poll: list the old controller's pods, then the new
   one's. A ready pod is credited to the old controller when its
   controller's name equals the old one's under Python's `==` (where `True`
   equals `1`), so with equal names everything goes to the old count; the
   `elif` that follows compares the new name with itself and always holds.
   */
  function RoundCredits(oldName: Json, newName: Json, round: Round): (r: Result<(nat, nat)>)
    ensures r.Ok? <==> ReadyIn(round.oldPods).Ok? && ReadyIn(round.newPods).Ok?
    ensures r.Ok? ==> Credits(oldName, newName, round, r.value.0, r.value.1)
    ensures r == Ok((0, 0)) <==> Idle(round)
  {
    var forOld :- ReadyIn(round.oldPods);
    var forNew :- ReadyIn(round.newPods);
    if PyEq(newName, oldName) then Ok((forOld + forNew, 0)) else Ok((forOld, forNew))
  }

  /**
   The poll's loop over the rounds' credits: stop at the first round that
   credits a ready pod, or at the first failure. `None` means the given
   rounds ran out with no pod ready; the library would keep polling.
   */
  function Scan(credits: seq<Result<(nat, nat)>>): (r: Result<Option<Readiness>>)
    ensures r.Ok? && r.value.Some? ==> r.value.value.oldReady + r.value.value.newReady >= 1
    ensures r.Ok? && r.value.Some? ==> 1 <= r.value.value.rounds <= |credits|
    decreases |credits|
  {
    if |credits| == 0 then Ok(None)
    else
      var first :- credits[0];
      if first != (0, 0) then Ok(Some(Readiness(first.0, first.1, 1)))
      else
        var rest :- Scan(credits[1..]);
        if rest.None? then Ok(None)
        else Ok(Some(rest.value.(rounds := rest.value.rounds + 1)))
  }

  /**
   The scan returns after the first round with credits, with those credits;
   every earlier round credited nothing. When it gives up, no round credited
   anything.
   */
  lemma {:induction false} ScanStopsAtFirstCredit(credits: seq<Result<(nat, nat)>>)
    requires Scan(credits).Ok?
    ensures var r := Scan(credits).value;
            && (r.Some? ==> (forall j :: 0 <= j < r.value.rounds - 1 ==> credits[j] == Ok((0, 0)))
                            && credits[r.value.rounds - 1] == Ok((r.value.oldReady, r.value.newReady)))
            && (r.None? ==> forall j :: 0 <= j < |credits| ==> credits[j] == Ok((0, 0)))
    decreases |credits|
  {
    if |credits| > 0 && credits[0] == Ok((0, 0)) {
      var rest := credits[1..];
      ScanStopsAtFirstCredit(rest);
      var r := Scan(credits).value;
      if r.Some? {
        var k := Scan(rest).value.value.rounds;
        assert credits[k] == rest[k - 1];
        forall j | 0 < j < r.value.rounds - 1
          ensures credits[j] == Ok((0, 0))
        {
          assert credits[j] == rest[j - 1];
        }
      } else {
        forall j | 0 < j < |credits|
          ensures credits[j] == Ok((0, 0))
        {
          assert credits[j] == rest[j - 1];
        }
      }
    }
  }

  /** `poll_for_ready_pods`: each round's credits, scanned in order. */
  function Poll(oldName: Json, newName: Json, rounds: seq<Round>): (r: Result<Option<Readiness>>)
    ensures r.Ok? && r.value.Some? ==> r.value.value.oldReady + r.value.value.newReady >= 1
    ensures r.Ok? && r.value.Some? ==> 1 <= r.value.value.rounds <= |rounds|
  {
    Scan(seq(|rounds|, i requires 0 <= i < |rounds| => RoundCredits(oldName, newName, rounds[i])))
  }

  /**
   The poll returns after the first round with a ready pod, with that round's
   counts; every earlier round saw none. When it gives up, no round saw one.
   */
  lemma PollCounts(oldName: Json, newName: Json, rounds: seq<Round>)
    requires Poll(oldName, newName, rounds).Ok?
    ensures var r := Poll(oldName, newName, rounds).value;
            && (r.Some? ==> (forall j :: 0 <= j < r.value.rounds - 1 ==> Idle(rounds[j]))
                            && Credits(oldName, newName, rounds[r.value.rounds - 1], r.value.oldReady, r.value.newReady))
            && (r.None? ==> forall j :: 0 <= j < |rounds| ==> Idle(rounds[j]))
  {
    var credits := seq(|rounds|, i requires 0 <= i < |rounds| => RoundCredits(oldName, newName, rounds[i]));
    ScanStopsAtFirstCredit(credits);
    var r := Poll(oldName, newName, rounds).value;
    if r.Some? {
      assert credits[r.value.rounds - 1] == RoundCredits(oldName, newName, rounds[r.value.rounds - 1]);
      forall j | 0 <= j < r.value.rounds - 1
        ensures Idle(rounds[j])
      {
        assert credits[j] == RoundCredits(oldName, newName, rounds[j]);
      }
    } else {
      forall j | 0 <= j < |rounds|
        ensures Idle(rounds[j])
      {
        assert credits[j] == RoundCredits(oldName, newName, rounds[j]);
      }
    }
  }

  /**
   `rc.scale()` right after the updater set `rc.replicas = n` locally. The
   call takes the current value as its target, so it only checks that the
   controller exists: one GET, never a PATCH.
   */
  function ScaleCall(o: ApiObject, n: int, env: Mixins.ScaleEnv): (r: Result<seq<Verb>>)
    ensures r.Ok? ==> r.value == [GET]
  {
    var o' :- Mixins.SetReplicas(o, JInt(n));
    var run :- Mixins.Scale(o', JNull, env);
    Mixins.ScaleWithoutTargetOnlyChecksExistence(o', env);
    Ok(run.calls)
  }

  /** The updater's fixed view of the two controllers during the loop. */
  datatype Controllers = Controllers(newRc: ApiObject, oldRc: ApiObject, newName: Json, oldName: Json)

  /**
   One pass of the loop: the counts after `scale_up`, and, unless the poll
   never returned, the new controller's ready count the poll reported (zero
   when the old controller was already empty) and the counts after
   `scale_down`.
   */
  datatype Pass =
    | Passed(mid: Counts, next: Counts, newReady: nat, calls: seq<Verb>)
    | Blocked(mid: Counts, calls: seq<Verb>)

  /**
   One pass of the main loop: `scale_up`, then `scale_down`, which polls
   readiness first and lowers the old count against the new controller's
   ready pods of the first round in which any pod was ready.
   */
  function Iterate(p: Plan, c: Controllers, s: Counts, it: Iteration): (r: Result<Pass>)
    ensures r.Ok? ==> r.value.mid == Counts(ScaleUp(p, s).replicas, s.oldReplicas)
    ensures r.Ok? && r.value.Passed? ==>
              r.value.next == Counts(r.value.mid.newReplicas, ScaleDown(p, r.value.mid, r.value.newReady).replicas)
    ensures r.Ok? && r.value.Passed? && s.oldReplicas == 0 ==> r.value.newReady == 0
    ensures r.Ok? && r.value.Passed? && s.oldReplicas != 0 ==>
              && Poll(c.oldName, c.newName, it.rounds).Ok?
              && Poll(c.oldName, c.newName, it.rounds).value.Some?
              && Poll(c.oldName, c.newName, it.rounds).value.value.newReady == r.value.newReady
    ensures r.Ok? && r.value.Blocked? ==> s.oldReplicas != 0 && Poll(c.oldName, c.newName, it.rounds) == Ok(None)
    ensures r.Ok? ==> PATCH !in r.value.calls
  {
    var up := ScaleUp(p, s);
    var upCalls :- if up.scaled then ScaleCall(c.newRc, up.replicas, it.scaleUp) else Ok([]);
    var mid := Counts(up.replicas, s.oldReplicas);
    if mid.oldReplicas == 0 then
      assert ScaleDown(p, mid, 0).replicas == 0;
      Ok(Passed(mid, mid, 0, upCalls))
    else
      var polled :- Poll(c.oldName, c.newName, it.rounds);
      if polled.None? then Ok(Blocked(mid, upCalls + Mixins.Gets(2 * |it.rounds|)))
      else
        var ready := polled.value.newReady;
        var down := ScaleDown(p, mid, ready);
        var downCalls :- if down.scaled then ScaleCall(c.oldRc, down.replicas, it.scaleDown) else Ok([]);
        assert PATCH !in Mixins.Gets(2 * polled.value.rounds);
        Ok(Passed(mid, Counts(mid.newReplicas, down.replicas), ready, upCalls + Mixins.Gets(2 * polled.value.rounds) + downCalls))
  }

  /**
   The loop's progress: the counts it ended with, every state it passed
   through (after each `scale_up` and each `scale_down`), the requests sent,
   and whether the exit condition was reached.
   */
  datatype Progress = Progress(final: Counts, visited: seq<Counts>, calls: seq<Verb>, finished: bool)

  /** `while new != desired or old != 0: scale_up; scale_down`, one iteration per element of `its`. */
  function Rollout(p: Plan, c: Controllers, s: Counts, its: seq<Iteration>): (r: Result<Progress>)
    ensures r.Ok? ==> |r.value.visited| >= 1 && r.value.visited[0] == s && r.value.visited[|r.value.visited| - 1] == r.value.final
    ensures r.Ok? ==> (r.value.finished <==> Done(p, r.value.final))
    ensures Done(p, s) ==> r == Ok(Progress(s, [s], [], true))
    ensures r.Ok? ==> PATCH !in r.value.calls
    decreases |its|
  {
    if Done(p, s) then Ok(Progress(s, [s], [], true))
    else if |its| == 0 then Ok(Progress(s, [s], [], false))
    else
      var pass :- Iterate(p, c, s, its[0]);
      match pass
      case Blocked(mid, calls) =>
        Ok(Progress(mid, [s, mid], calls, Done(p, mid)))
      case Passed(mid, next, _, calls) =>
        var rest :- Rollout(p, c, next, its[1..]);
        Ok(Progress(rest.final, [s, mid] + rest.visited, calls + rest.calls, rest.finished))
  }

  /**
   The updater's safety envelope: the old count is not negative, the new
   count does not pass `desired`, and while the old controller still has
   replicas the two together stay within `original + max_surge`.
   */
  predicate Safe(p: Plan, s: Counts) {
    && 0 <= s.oldReplicas
    && s.newReplicas <= p.desired
    && (s.oldReplicas > 0 ==> s.oldReplicas + s.newReplicas <= p.original + p.maxSurge)
  }

  /** Between consecutive states the new count only grows and the old count only shrinks. */
  predicate Advances(a: Counts, b: Counts) {
    a.newReplicas <= b.newReplicas && b.oldReplicas <= a.oldReplicas
  }

  /**
   What `scale_down` promises about availability: either it left the old
   count alone, or the cut-over ended the update, or the old replicas plus
   the new ready pods still number at least `min_available`.
   */
  predicate KeepsAvailable(p: Plan, mid: Counts, next: Counts, newReady: int) {
    next.oldReplicas == mid.oldReplicas || Done(p, next) || next.oldReplicas + newReady >= MinAvailable(p)
  }

  /** Both halves of a pass keep the envelope and move in the right direction. */
  lemma IterateSafe(p: Plan, c: Controllers, s: Counts, it: Iteration)
    requires Safe(p, s)
    requires Iterate(p, c, s, it).Ok?
    ensures var pass := Iterate(p, c, s, it).value;
            && Safe(p, pass.mid) && Advances(s, pass.mid)
            && (pass.Passed? ==> Safe(p, pass.next) && Advances(pass.mid, pass.next))
  {
  }

  /** The scale-down of a pass keeps the availability floor against the ready count the poll reported. */
  lemma IterateKeepsAvailable(p: Plan, c: Controllers, s: Counts, it: Iteration)
    requires Iterate(p, c, s, it).Ok? && Iterate(p, c, s, it).value.Passed?
    ensures var pass := Iterate(p, c, s, it).value;
            KeepsAvailable(p, pass.mid, pass.next, pass.newReady)
  {
  }

  /** The states one more pass adds in front of the rest of the loop. */
  lemma RolloutVisits(p: Plan, c: Controllers, s: Counts, its: seq<Iteration>)
    requires !Done(p, s) && |its| > 0
    requires Rollout(p, c, s, its).Ok?
    ensures Iterate(p, c, s, its[0]).Ok?
    ensures var pass := Iterate(p, c, s, its[0]).value;
            var v := Rollout(p, c, s, its).value.visited;
            && (pass.Blocked? ==> v == [s, pass.mid])
            && (pass.Passed? ==> Rollout(p, c, pass.next, its[1..]).Ok?
                                 && v == [s, pass.mid] + Rollout(p, c, pass.next, its[1..]).value.visited)
  {
  }

  /** Every state the loop passes through is safe, and each moves on from the one before. */
  lemma {:induction false} RolloutSafe(p: Plan, c: Controllers, s: Counts, its: seq<Iteration>)
    requires Safe(p, s)
    requires Rollout(p, c, s, its).Ok?
    ensures var v := Rollout(p, c, s, its).value.visited;
            && (forall i :: 0 <= i < |v| ==> Safe(p, v[i]))
            && (forall i :: 0 < i < |v| ==> Advances(v[i - 1], v[i]))
    decreases |its|
  {
    var v := Rollout(p, c, s, its).value.visited;
    if Done(p, s) || |its| == 0 {
      assert v == [s];
    } else {
      IterateSafe(p, c, s, its[0]);
      RolloutVisits(p, c, s, its);
      var pass := Iterate(p, c, s, its[0]).value;
      if pass.Passed? {
        RolloutSafe(p, c, pass.next, its[1..]);
        var rest := Rollout(p, c, pass.next, its[1..]).value.visited;
        assert |rest| >= 1 && rest[0] == pass.next;
        PrependSafe(p, s, pass.mid, rest, v);
      } else {
        PrependSafe(p, s, pass.mid, [], v);
      }
    }
  }

  /** Two safe, advancing states in front of a safe, advancing run make a safe, advancing run. */
  lemma PrependSafe(p: Plan, s: Counts, mid: Counts, rest: seq<Counts>, v: seq<Counts>)
    requires v == [s, mid] + rest
    requires Safe(p, s) && Safe(p, mid) && Advances(s, mid)
    requires |rest| > 0 ==> Advances(mid, rest[0])
    requires forall i :: 0 <= i < |rest| ==> Safe(p, rest[i])
    requires forall i :: 0 < i < |rest| ==> Advances(rest[i - 1], rest[i])
    ensures forall i :: 0 <= i < |v| ==> Safe(p, v[i])
    ensures forall i :: 0 < i < |v| ==> Advances(v[i - 1], v[i])
  {
    forall i | 2 <= i < |v|
      ensures v[i] == rest[i - 2]
    {
    }
  }


  /** The server's side of `update`: the existence check, the create, the loop's iterations, the delete. */
  datatype UpdateEnv = UpdateEnv(api: Http.Client, existsStatus: int, created: Response, iterations: seq<Iteration>, deleteStatus: int)

  /** How `update` ended: `False` because the new controller exists, finished and cleaned up, or still looping. */
  datatype Outcome = AlreadyExists | Completed | Stalled

  /**
   A run of `update`: how it ended, the document it POSTed, the counts the
   loop passed through, and the requests in order.
   */
  datatype UpdateRun = UpdateRun(outcome: Outcome, posted: Option<map<string, Json>>, visited: seq<Counts>, calls: seq<Verb>)

  /** `rc.replicas` used as a number. */
  function IntReplicas(o: ApiObject): (r: Result<int>)
    ensures r.Ok? <==> Mixins.Replicas(o).Ok? && Mixins.Replicas(o).value.JInt?
    ensures r.Ok? ==> Mixins.Replicas(o) == Ok(JInt(r.value))
    ensures !Mixins.Replicated(o.kind) ==> r.Err? && r.error.AttributeError?
  {
    var v :- Mixins.Replicas(o);
    if v.JInt? then Ok(v.i) else Err(TypeError("replicas is not an int"))
  }

  /** The first lines of `update`: both counts, then both budgets resolved against `desired`. */
  function Prepare(oldRc: ApiObject, newRc: ApiObject, budgets: Budgets): (r: Result<Plan>)
    ensures r.Ok? ==>
              && IntReplicas(newRc) == Ok(r.value.desired)
              && IntReplicas(oldRc) == Ok(r.value.original)
              && ExtractMaxValue(budgets.maxUnavailable, "max_unavailable", r.value.desired) == Ok(r.value.maxUnavailable)
              && ExtractMaxValue(budgets.maxSurge, "max_surge", r.value.desired) == Ok(r.value.maxSurge)
    ensures !Mixins.Replicated(newRc.kind) ==> r.Err? && r.error.AttributeError?
    ensures IntReplicas(newRc).Ok? && !Mixins.Replicated(oldRc.kind) ==> r.Err? && r.error.AttributeError?
  {
    var desired :- IntReplicas(newRc);
    var original :- IntReplicas(oldRc);
    var maxUnavailable :- ExtractMaxValue(budgets.maxUnavailable, "max_unavailable", desired);
    var maxSurge :- ExtractMaxValue(budgets.maxSurge, "max_surge", desired);
    Ok(Plan(desired, original, maxSurge, maxUnavailable))
  }

  /** `rc.obj["spec"]["template"]["metadata"]["labels"]`. */
  function TemplateLabels(o: ApiObject): Result<Json> {
    var template :- Mixins.SpecField(o, "template");
    var md :- Get(template, "metadata");
    Get(md, "labels")
  }

  /** The error for a new controller whose selector equals the old one's. */
  function SameSelectorError(newName: Json, oldName: Json): Error {
    KubernetesError("error: " + Str(newName) + " must specify a matching key with non-equal value in Selector for " + Str(oldName))
  }

  /** The error for a new controller whose selector is not its template's labels. */
  function LabelMismatchError(newName: Json, selector: Json, labels: Json): Error {
    KubernetesError("The ReplicationController " + Str(newName) + " is invalid. spec.template.metadata.labels: Invalid value: "
                    + Str(selector) + ": `selector` does not match template `labels` " + Str(labels))
  }

  /**
   The checks between the existence test and the create, with Python's `==`
   and `!=` (so `1` and `True` count as equal); `Ok` when both pass.
   */
  function CheckSelectors(oldRc: ApiObject, newRc: ApiObject): (r: Result<()>)
    ensures r.Ok? ==>
              && Mixins.SpecField(newRc, "selector").Ok? && Mixins.SpecField(oldRc, "selector").Ok?
              && !PyEq(Mixins.SpecField(newRc, "selector").value, Mixins.SpecField(oldRc, "selector").value)
              && TemplateLabels(newRc).Ok? && PyEq(Mixins.SpecField(newRc, "selector").value, TemplateLabels(newRc).value)
    ensures Mixins.SpecField(newRc, "selector").Ok? && Mixins.SpecField(oldRc, "selector").Ok?
            && PyEq(Mixins.SpecField(newRc, "selector").value, Mixins.SpecField(oldRc, "selector").value)
            && Name(newRc).Ok? && Name(oldRc).Ok? ==>
              r == Err(SameSelectorError(Name(newRc).value, Name(oldRc).value))
    ensures Mixins.SpecField(newRc, "selector").Ok? && Mixins.SpecField(oldRc, "selector").Ok?
            && !PyEq(Mixins.SpecField(newRc, "selector").value, Mixins.SpecField(oldRc, "selector").value)
            && TemplateLabels(newRc).Ok? && !PyEq(Mixins.SpecField(newRc, "selector").value, TemplateLabels(newRc).value)
            && Name(newRc).Ok? ==>
              r == Err(LabelMismatchError(Name(newRc).value, Mixins.SpecField(newRc, "selector").value, TemplateLabels(newRc).value))
  {
    var newSelector :- Mixins.SpecField(newRc, "selector");
    var oldSelector :- Mixins.SpecField(oldRc, "selector");
    if PyEq(newSelector, oldSelector) then
      var newName :- Name(newRc);
      var oldName :- Name(oldRc);
      Err(SameSelectorError(newName, oldName))
    else
      var labels :- TemplateLabels(newRc);
      if !PyEq(newSelector, labels) then
        var newName :- Name(newRc);
        Err(LabelMismatchError(newName, newSelector, labels))
      else Ok(())
  }

  /** What the create sent, and the loop's view of the two controllers afterwards. */
  datatype Launched = Launched(posted: map<string, Json>, c: Controllers, start: int)

  /**
   The part of `update` from the selector checks to the start of the loop:
   `create_rc` zeroes the new controller's count and POSTs it; the object
   then holds the server's document, whose name and count the loop starts
   from (the start-of-rollout log line reads both names).
   */
  function Launch(oldRc: ApiObject, newRc: ApiObject, api: Http.Client, created: Response): (r: Result<Launched>)
    ensures r.Ok? ==> CheckSelectors(oldRc, newRc).Ok?
    ensures r.Ok? ==> Mixins.Replicas(ApiObject(newRc.kind, r.value.posted, newRc.original)) == Ok(JInt(0))
    ensures r.Ok? ==> r.value.c.oldRc == oldRc && r.value.c.newRc == SetObj(newRc.kind, created.body)
    ensures r.Ok? ==> IntReplicas(r.value.c.newRc) == Ok(r.value.start)
    ensures CheckSelectors(oldRc, newRc).Err? ==> r == Err(CheckSelectors(oldRc, newRc).error)
  {
    var _ :- CheckSelectors(oldRc, newRc);
    var zeroed :- Mixins.SetReplicas(newRc, JInt(0));
    Mixins.ReplicasRoundTrip(newRc, JInt(0));
    var createdRc :- Create(zeroed, api, created);
    var newName :- Name(createdRc);
    var start :- IntReplicas(createdRc);
    var oldName :- Name(oldRc);
    Ok(Launched(zeroed.obj, Controllers(createdRc, oldRc, newName, oldName), start))
  }

  /** The loop from the launched state, then `cleanup`, which deletes the old controller. */
  function Finish(p: Plan, l: Launched, env: UpdateEnv): (r: Result<UpdateRun>)
    ensures r.Ok? ==> r.value.outcome != AlreadyExists && r.value.posted == Some(l.posted)
    ensures r.Ok? ==> |r.value.calls| >= 2 && r.value.calls[0] == GET && r.value.calls[1] == POST
    ensures r.Ok? ==> PATCH !in r.value.calls
    ensures r.Ok? ==> |r.value.visited| >= 1 && r.value.visited[0] == Counts(l.start, p.original)
  {
    var progress :- Rollout(p, l.c, Counts(l.start, p.original), env.iterations);
    Conclude(l, progress, env.api, env.deleteStatus)
  }

  /** After the loop: `cleanup` deletes the old controller once the loop has finished. */
  function Conclude(l: Launched, progress: Progress, api: Http.Client, deleteStatus: int): (r: Result<UpdateRun>)
    ensures r.Ok? ==> r.value.posted == Some(l.posted) && r.value.visited == progress.visited
    ensures r.Ok? ==> (r.value.outcome == Completed <==> progress.finished)
    ensures r.Ok? ==> r.value.outcome != AlreadyExists
    ensures r.Ok? ==> |r.value.calls| >= 2 && r.value.calls[0] == GET && r.value.calls[1] == POST
    ensures r.Ok? && PATCH !in progress.calls ==> PATCH !in r.value.calls
    ensures r.Ok? && r.value.outcome == Completed ==> r.value.calls[|r.value.calls| - 1] == DELETE
    ensures !progress.finished ==> r.Ok?
  {
    if !progress.finished then
      Ok(UpdateRun(Stalled, Some(l.posted), progress.visited, [GET, POST] + progress.calls))
    else
      // The replica edits touch only `spec`, which the DELETE request does not read.
      var _ :- Delete(l.c.oldRc, api, deleteStatus);
      Ok(UpdateRun(Completed, Some(l.posted), progress.visited, [GET, POST] + progress.calls + [DELETE]))
  }

  /**
   `update`: resolve the budgets; stop with `False` when the new controller
   already exists; check the selectors; create the new controller with zero
   replicas; run the loop; delete the old controller.
   */
  function Update(oldRc: ApiObject, newRc: ApiObject, budgets: Budgets, env: UpdateEnv): (r: Result<UpdateRun>)
    ensures r.Ok? ==> |r.value.calls| >= 1 && r.value.calls[0] == GET
    ensures r.Ok? ==> (r.value.outcome == AlreadyExists <==> r.value.posted.None?)
    ensures r.Ok? && r.value.outcome == AlreadyExists ==> r.value.calls == [GET]
    ensures r.Ok? ==> PATCH !in r.value.calls
  {
    var p :- Prepare(oldRc, newRc, budgets);
    var present :- Exists(newRc, env.api, env.existsStatus, false);
    if present then
      var _ :- Name(newRc);
      Ok(UpdateRun(AlreadyExists, None, [], [GET]))
    else
      var launched :- Launch(oldRc, newRc, env.api, env.created);
      var run :- Finish(p, launched, env);
      Ok(run)
  }

  /** Past the existence check, a successful `update` is the launch followed by the loop and the cleanup. */
  lemma UpdateIsLaunchThenFinish(oldRc: ApiObject, newRc: ApiObject, budgets: Budgets, env: UpdateEnv)
    requires Update(oldRc, newRc, budgets, env).Ok?
    requires Update(oldRc, newRc, budgets, env).value.outcome != AlreadyExists
    ensures Prepare(oldRc, newRc, budgets).Ok? && Launch(oldRc, newRc, env.api, env.created).Ok?
    ensures Update(oldRc, newRc, budgets, env)
            == Finish(Prepare(oldRc, newRc, budgets).value, Launch(oldRc, newRc, env.api, env.created).value, env)
  {
    var p := Prepare(oldRc, newRc, budgets);
    assert p.Ok?;
    var present := Exists(newRc, env.api, env.existsStatus, false);
    assert present.Ok? && !present.value;
    var launched := Launch(oldRc, newRc, env.api, env.created);
    assert launched.Ok?;
  }


  /**
   Once `update` gets past the existence check it has passed both selector
   checks, and the document it POSTs asks for zero replicas; the create is
   the second request.
   */
  lemma UpdateCreatesEmpty(oldRc: ApiObject, newRc: ApiObject, budgets: Budgets, env: UpdateEnv)
    requires Update(oldRc, newRc, budgets, env).Ok?
    requires Update(oldRc, newRc, budgets, env).value.outcome != AlreadyExists
    ensures var run := Update(oldRc, newRc, budgets, env).value;
            && |run.calls| >= 2 && run.calls[1] == POST
            && CheckSelectors(oldRc, newRc).Ok?
            && run.posted.Some?
            && Mixins.Replicas(ApiObject(newRc.kind, run.posted.value, newRc.original)) == Ok(JInt(0))
  {
    UpdateIsLaunchThenFinish(oldRc, newRc, budgets, env);
    var p := Prepare(oldRc, newRc, budgets).value;
    var launched := Launch(oldRc, newRc, env.api, env.created).value;
    var run := Finish(p, launched, env).value;
    assert run.calls[1] == run.calls[..2][1];
  }

  /**
   `update` reports completion only after the loop's exit condition held:
   the new controller at `desired`, the old at zero; the DELETE comes last.
   */
  lemma UpdateCompletes(oldRc: ApiObject, newRc: ApiObject, budgets: Budgets, env: UpdateEnv, run: UpdateRun)
    requires Update(oldRc, newRc, budgets, env) == Ok(run) && run.outcome == Completed
    ensures Prepare(oldRc, newRc, budgets).Ok?
    ensures run.calls[|run.calls| - 1] == DELETE
    ensures |run.visited| >= 1 && Done(Prepare(oldRc, newRc, budgets).value, run.visited[|run.visited| - 1])
  {
    UpdateIsLaunchThenFinish(oldRc, newRc, budgets, env);
    var p := Prepare(oldRc, newRc, budgets).value;
    var l := Launch(oldRc, newRc, env.api, env.created).value;
    assert Finish(p, l, env) == Ok(run);
    FinishCompletes(p, l, env, run);
  }

  /** The run completes exactly when the loop's exit condition held at its last state; the DELETE comes last. */
  lemma FinishCompletes(p: Plan, l: Launched, env: UpdateEnv, run: UpdateRun)
    requires Finish(p, l, env) == Ok(run)
    ensures |run.visited| >= 1
    ensures run.outcome == Completed <==> Done(p, run.visited[|run.visited| - 1])
    ensures run.outcome == Completed ==> run.calls[|run.calls| - 1] == DELETE
  {
    var rolled := Rollout(p, l.c, Counts(l.start, p.original), env.iterations);
    assert rolled.Ok?;
    var progress := rolled.value;
    assert Conclude(l, progress, env.api, env.deleteStatus) == Ok(run);
    assert run.visited == progress.visited;
    assert progress.visited[|progress.visited| - 1] == progress.final;
    assert run.outcome == Completed <==> progress.finished;
    assert progress.finished <==> Done(p, progress.final);
    assert run.visited[|run.visited| - 1] == progress.final;
  }

  /** An existing new controller ends `update` with `False` after the one existence check. */
  lemma UpdateStopsWhenNewExists(oldRc: ApiObject, newRc: ApiObject, budgets: Budgets, env: UpdateEnv)
    requires Prepare(oldRc, newRc, budgets).Ok?
    requires RequestError(newRc, false).None? && !Http.IsErrorStatus(env.existsStatus) && Name(newRc).Ok?
    ensures Update(oldRc, newRc, budgets, env) == Ok(UpdateRun(AlreadyExists, None, [], [GET]))
  {
  }

  /**
   Equal selectors, or a selector that is not the template's labels, raise
   before anything is created: the error does not depend on what the create,
   the loop or the delete would have seen.
   */
  lemma UpdateRejectsBadSelectors(oldRc: ApiObject, newRc: ApiObject, budgets: Budgets, env: UpdateEnv, other: UpdateEnv)
    requires Prepare(oldRc, newRc, budgets).Ok?
    requires RequestError(newRc, false).None? && env.existsStatus == 404
    requires CheckSelectors(oldRc, newRc).Err?
    requires other.existsStatus == env.existsStatus
    ensures Update(oldRc, newRc, budgets, env) == Err(CheckSelectors(oldRc, newRc).error)
    ensures Update(oldRc, newRc, budgets, other) == Update(oldRc, newRc, budgets, env)
  {
    ClientShapesOnlyTheUrl(newRc, false, env.api, other.api);
  }

  /**
   When the server echoes the zero count it was sent, every state of the
   update's loop is safe and each moves on from the one before: the surge
   and the desired count are never exceeded, the new controller only grows
   and the old one only shrinks.
   */
  lemma UpdateStaysSafe(oldRc: ApiObject, newRc: ApiObject, budgets: Budgets, env: UpdateEnv)
    requires Update(oldRc, newRc, budgets, env).Ok?
    requires Update(oldRc, newRc, budgets, env).value.outcome != AlreadyExists
    requires IntReplicas(newRc).Ok? && IntReplicas(newRc).value >= 0
    requires IntReplicas(oldRc).Ok? && IntReplicas(oldRc).value >= 0
    requires IntReplicas(SetObj(newRc.kind, env.created.body)) == Ok(0)
    ensures Prepare(oldRc, newRc, budgets).Ok?
    ensures var p := Prepare(oldRc, newRc, budgets).value;
            var v := Update(oldRc, newRc, budgets, env).value.visited;
            && |v| >= 1 && v[0] == Counts(0, p.original)
            && (forall i :: 0 <= i < |v| ==> Safe(p, v[i]))
            && (forall i :: 0 < i < |v| ==> Advances(v[i - 1], v[i]))
  {
    UpdateIsLaunchThenFinish(oldRc, newRc, budgets, env);
    var p := Prepare(oldRc, newRc, budgets).value;
    var launched := Launch(oldRc, newRc, env.api, env.created).value;
    assert launched.start == 0;
    assert p.maxSurge >= 0;
    RolloutSafe(p, launched.c, Counts(0, p.original), env.iterations);
  }
}
