/**
 * `CachedProbe` of apps/facilitator-erc7710/guards.ts: one reading per window, shared by every
 * caller that arrives while it is fresh or in flight.
 */
module Probe {
  import opened Wrappers

  type Caller = nat
  type Error = nat

  datatype Outcome = Ok(value: int) | Err(error: Error)

  /** A settled reading and when it stops being the answer; `at` is when it settled. */
  datatype Settled = Settled(at: nat, until: nat, outcome: Outcome)

  /** `Stuck` is a promise already rejected and kept: nothing will clear it. */
  datatype Pending = Idle | InFlight(callers: seq<Caller>) | Stuck(error: Error)

  datatype Cache = Cache(settled: Option<Settled>, pending: Pending)
  datatype Config = Config(ttl: nat, cacheFailures: bool)

  /** Where an answer came from: the window's reading, a run the caller waited on, or a stuck promise. */
  datatype Source = Window | Shared(run: nat) | Kept
  datatype Answer = Answer(caller: Caller, outcome: Outcome, source: Source)

  function Settle(c: Config, s: Option<Settled>, outcome: Outcome, now: nat): Option<Settled> {
    if outcome.Ok? || c.cacheFailures then Some(Settled(now, now + c.ttl, outcome)) else s
  }

  predicate Fresh(s: Cache, now: nat) { s.settled.Some? && now < s.settled.value.until }

  /**
   * A caller arrives. Where the call of the probe itself throws, the run has gone through the whole of
   * its clean-up by the time its promise is stored, so the rejected promise is what stays. An async
   * function cannot do that: however early it throws, its call returns a promise, and the run awaits it.
   */
  function Arrive(c: Config, s: Cache, caller: Caller, now: nat, thrown: Option<Error>): Cache {
    if Fresh(s, now) then s
    else match s.pending
      case Idle =>
        if thrown.None? then s.(pending := InFlight([caller]))
        else Cache(Settle(c, s.settled, Err(thrown.value), now), Stuck(thrown.value))
      case InFlight(callers) => s.(pending := InFlight(callers + [caller]))
      case Stuck(_) => s
  }

  function Complete(c: Config, s: Cache, outcome: Outcome, now: nat): Cache {
    Cache(Settle(c, s.settled, outcome, now), Idle)
  }

  function PrimeWith(c: Config, s: Cache, value: int, now: nat): Cache {
    s.(settled := Some(Settled(now, now + c.ttl, Ok(value))))
  }

  class CachedProbe {
    const config: Config
    var settled: Option<Settled>
    var pending: Pending

    constructor (ttl: nat, cacheFailures: bool)
      requires ttl >= 1
      ensures config == Config(ttl, cacheFailures) && State() == Cache(None, Idle)
    {
      config, settled, pending := Config(ttl, cacheFailures), None, Idle;
    }

    function State(): Cache
      reads this
    {
      Cache(settled, pending)
    }

    method Prime(value: int, now: nat)
      modifies this
      ensures State() == PrimeWith(config, old(State()), value, now)
    {
      settled := Some(Settled(now, now + config.ttl, Ok(value)));
    }

    /** What a caller can be told at once; otherwise it waits on the run in flight, which it may have started. */
    method Read(caller: Caller, now: nat, thrown: Option<Error>) returns (told: Option<Outcome>, started: bool)
      modifies this
      ensures State() == Arrive(config, old(State()), caller, now, thrown)
      ensures started <==> !Fresh(old(State()), now) && old(pending).Idle?
      ensures told == if Fresh(old(State()), now) then Some(old(settled).value.outcome)
                      else if pending.Stuck? then Some(Err(pending.error)) else None
    {
      if settled.Some? && now < settled.value.until {
        return Some(settled.value.outcome), false;
      }
      started := pending.Idle?;
      match pending {
        case Idle =>
          if thrown.Some? {
            settled := Settle(config, settled, Err(thrown.value), now);
            pending := Stuck(thrown.value);
            return Some(Err(thrown.value)), true;
          }
          pending := InFlight([caller]);
        case InFlight(callers) => pending := InFlight(callers + [caller]);
        case Stuck(error) => return Some(Err(error)), false;
      }
      told := None;
    }

    method Finish(outcome: Outcome, now: nat)
      requires pending.InFlight?
      modifies this
      ensures State() == Complete(config, old(State()), outcome, now)
    {
      settled := Settle(config, settled, outcome, now);
      pending := Idle;
    }
  }

  // ---- whole runs -----------------------------------------------------------------------------------

  /** `starts` are the times probes started; `ended` the outcomes of those that completed, in order. */
  datatype World = World(cache: Cache, clock: nat, starts: seq<nat>, ended: seq<Outcome>, answers: seq<Answer>)

  datatype Event =
    | Read(caller: Caller, now: nat, thrown: Option<Error>)
    | Finish(outcome: Outcome, now: nat)
    | Prime(value: int, now: nat)

  predicate Can(w: World, e: Event) { e.now >= w.clock && (e.Finish? ==> w.cache.pending.InFlight?) }

  function Told(callers: seq<Caller>, outcome: Outcome, run: nat): seq<Answer> {
    if callers == [] then [] else [Answer(callers[0], outcome, Shared(run))] + Told(callers[1..], outcome, run)
  }

  function Do(c: Config, w: World, e: Event): World
    requires Can(w, e)
  {
    match e
    case Read(caller, now, thrown) =>
      var cache := Arrive(c, w.cache, caller, now, thrown);
      if Fresh(w.cache, now) then
        w.(clock := now, answers := w.answers + [Answer(caller, w.cache.settled.value.outcome, Window)])
      else if w.cache.pending.Idle? then
        World(cache, now, w.starts + [now], if thrown.Some? then w.ended + [Err(thrown.value)] else w.ended,
              if thrown.Some? then w.answers + [Answer(caller, Err(thrown.value), Shared(|w.starts|))] else w.answers)
      else if w.cache.pending.Stuck? then
        w.(cache := cache, clock := now, answers := w.answers + [Answer(caller, Err(w.cache.pending.error), Kept)])
      else w.(cache := cache, clock := now)
    case Finish(outcome, now) =>
      World(Complete(c, w.cache, outcome, now), now, w.starts, w.ended + [outcome],
            w.answers + Told(w.cache.pending.callers, outcome, |w.ended|))
    case Prime(value, now) => w.(cache := PrimeWith(c, w.cache, value, now), clock := now)
  }

  predicate Legal(c: Config, w: World, es: seq<Event>)
    decreases |es|
  {
    es == [] || (Can(w, es[0]) && Legal(c, Do(c, w, es[0]), es[1..]))
  }

  function Exec(c: Config, w: World, es: seq<Event>): World
    requires Legal(c, w, es)
    decreases |es|
  {
    if es == [] then w else Exec(c, Do(c, w, es[0]), es[1..])
  }

  function Start(): World { World(Cache(None, Idle), 0, [], [], []) }

  /** No call of a probe throws. */
  predicate Async(es: seq<Event>) { forall k :: 0 <= k < |es| && es[k].Read? ==> es[k].thrown.None? }

  /** The k-th probe's ending keeps the next one a whole window away. */
  predicate Spaces(c: Config, ended: seq<Outcome>, k: nat)
    requires k < |ended|
  {
    ended[k].Ok? || c.cacheFailures
  }

  ghost predicate Inv(c: Config, w: World) {
    && !w.cache.pending.Stuck?
    && |w.starts| == |w.ended| + (if w.cache.pending.InFlight? then 1 else 0)
    && (forall k :: 0 <= k < |w.starts| ==> w.starts[k] <= w.clock)
    && (w.cache.settled.Some? ==> w.cache.settled.value.until == w.cache.settled.value.at + c.ttl && w.cache.settled.value.at <= w.clock
                                  && (w.cache.settled.value.outcome.Err? ==> c.cacheFailures))
    && (forall k :: 0 < k < |w.starts| && Spaces(c, w.ended, k - 1) ==> w.starts[k] >= w.starts[k - 1] + c.ttl)
    && (w.cache.pending.Idle? && |w.ended| > 0 && Spaces(c, w.ended, |w.ended| - 1) ==>
          w.cache.settled.Some? && w.cache.settled.value.until >= w.starts[|w.starts| - 1] + c.ttl)
    && (forall k :: 0 <= k < |w.answers| && w.answers[k].outcome.Err? && !c.cacheFailures ==>
          w.answers[k].source.Shared? && w.answers[k].source.run < |w.ended| && w.ended[w.answers[k].source.run] == w.answers[k].outcome)
  }

  lemma {:induction false} ToldShape(callers: seq<Caller>, outcome: Outcome, run: nat)
    ensures |Told(callers, outcome, run)| == |callers|
    ensures forall k :: 0 <= k < |callers| ==> Told(callers, outcome, run)[k] == Answer(callers[k], outcome, Shared(run))
  {
    if callers != [] {
      ToldShape(callers[1..], outcome, run);
    }
  }

  lemma ReadKeeps(c: Config, w: World, e: Event)
    requires Inv(c, w) && Can(w, e) && e.Read? && e.thrown.None?
    ensures Inv(c, Do(c, w, e))
  {
  }

  lemma FinishKeeps(c: Config, w: World, e: Event)
    requires Inv(c, w) && Can(w, e) && e.Finish?
    ensures Inv(c, Do(c, w, e))
  {
    ToldShape(w.cache.pending.callers, e.outcome, |w.ended|);
  }

  lemma StepKeeps(c: Config, w: World, e: Event)
    requires Inv(c, w) && Can(w, e) && (e.Read? ==> e.thrown.None?)
    ensures Inv(c, Do(c, w, e))
  {
    match e {
      case Read(_, _, _) => ReadKeeps(c, w, e);
      case Finish(_, _) => FinishKeeps(c, w, e);
      case Prime(_, _) =>
    }
  }

  lemma {:induction false} RunsKeep(c: Config, w: World, es: seq<Event>)
    requires Inv(c, w) && Legal(c, w, es) && Async(es)
    ensures Inv(c, Exec(c, w, es))
    decreases |es|
  {
    if es != [] {
      StepKeeps(c, w, es[0]);
      assert Async(es[1..]);
      RunsKeep(c, Do(c, w, es[0]), es[1..]);
    }
  }

  // ---- spacing -------------------------------------------------------------------------------------------

  /** One probe at most is in flight, and it is the last that started. */
  lemma OneInFlight(c: Config, es: seq<Event>)
    requires Legal(c, Start(), es) && Async(es)
    ensures var w := Exec(c, Start(), es);
            |w.ended| <= |w.starts| <= |w.ended| + 1 && (|w.starts| > |w.ended| <==> w.cache.pending.InFlight?)
  {
    RunsKeep(c, Start(), es);
  }

  /** After a probe that succeeded, or any probe when failures are cached, the next starts a window later. */
  lemma NextStartIsSpaced(c: Config, es: seq<Event>, k: nat)
    requires Legal(c, Start(), es) && Async(es)
    requires 0 < k < |Exec(c, Start(), es).starts|
    ensures var w := Exec(c, Start(), es);
            k - 1 < |w.ended| && (Spaces(c, w.ended, k - 1) ==> w.starts[k] >= w.starts[k - 1] + c.ttl)
  {
    RunsKeep(c, Start(), es);
  }

  lemma {:induction false} SpacedBy(starts: seq<nat>, ttl: nat, j: nat, k: nat)
    requires j <= k < |starts| && forall i :: j < i <= k ==> starts[i] >= starts[i - 1] + ttl
    ensures starts[k] - starts[j] >= (k - j) * ttl
  {
    if j < k {
      SpacedBy(starts, ttl, j, k - 1);
      assert (k - j) * ttl == (k - 1 - j) * ttl + ttl;
    }
  }

  /**
   * Any n probe starts in a row, each but the last having succeeded or being cached as a failure,
   * span at least (n - 1) windows; with failures cached that is any n starts at all.
   */
  lemma StartsSpanWindows(c: Config, es: seq<Event>, j: nat, k: nat)
    requires Legal(c, Start(), es) && Async(es)
    requires var w := Exec(c, Start(), es);
             j <= k < |w.starts| && (c.cacheFailures || forall i :: j <= i < k && i < |w.ended| ==> w.ended[i].Ok?)
    ensures var w := Exec(c, Start(), es);
            w.starts[j] + (k - j) * c.ttl <= w.starts[k]
  {
    RunsKeep(c, Start(), es);
    SpacedBy(Exec(c, Start(), es).starts, c.ttl, j, k);
  }

  /** Without failure caching, an error only ever reaches a caller that waited on the run that raised it. */
  lemma FailuresAreShared(c: Config, es: seq<Event>, k: nat)
    requires !c.cacheFailures && Legal(c, Start(), es) && Async(es)
    requires k < |Exec(c, Start(), es).answers| && Exec(c, Start(), es).answers[k].outcome.Err?
    ensures var w := Exec(c, Start(), es);
            var a := w.answers[k];
            a.source.Shared? && a.source.run < |w.ended| && w.ended[a.source.run] == a.outcome
  {
    RunsKeep(c, Start(), es);
  }

  // ---- what a window answers ------------------------------------------------------------------------------------

  /** When the window was last filled, and with what. */
  datatype Fill = Fill(at: nat, outcome: Outcome)

  /** The last seeding of the events, or the last ending that counts: a success, or any where failures are cached. */
  function LastFill(c: Config, es: seq<Event>, before: Option<Fill>): Option<Fill> {
    if es == [] then before
    else LastFill(c, es[1..], match es[0]
                              case Prime(value, now) => Some(Fill(now, Ok(value)))
                              case Finish(Ok(value), now) => Some(Fill(now, Ok(value)))
                              case Finish(Err(error), now) => if c.cacheFailures then Some(Fill(now, Err(error))) else before
                              case Read(_, _, _) => before)
  }

  predicate Holds(c: Config, s: Option<Settled>, fill: Option<Fill>) {
    match fill
    case None => s.None?
    case Some(f) => s == Some(Settled(f.at, f.at + c.ttl, f.outcome))
  }

  lemma {:induction false} FillHolds(c: Config, w: World, es: seq<Event>, fill: Option<Fill>)
    requires !w.cache.pending.Stuck? && Holds(c, w.cache.settled, fill) && Legal(c, w, es) && Async(es)
    ensures Holds(c, Exec(c, w, es).cache.settled, LastFill(c, es, fill))
    decreases |es|
  {
    if es != [] {
      var next := match es[0]
                  case Prime(value, now) => Some(Fill(now, Ok(value)))
                  case Finish(Ok(value), now) => Some(Fill(now, Ok(value)))
                  case Finish(Err(error), now) => if c.cacheFailures then Some(Fill(now, Err(error))) else fill
                  case Read(_, _, _) => fill;
      assert es[0].Read? ==> es[0].thrown.None?;
      assert Async(es[1..]);
      FillHolds(c, Do(c, w, es[0]), es[1..], next);
    }
  }

  /**
   * A caller is answered out of the window if and only if it was filled less than a window ago, and then with
   * what it was last filled with; otherwise it waits on a run that is in flight or starts one.
   */
  lemma WindowIsTheLastFill(c: Config, es: seq<Event>, caller: Caller, now: nat)
    requires Legal(c, Start(), es) && Async(es) && now >= Exec(c, Start(), es).clock
    ensures var w, fill := Exec(c, Start(), es), LastFill(c, es, None);
            var w' := Do(c, w, Read(caller, now, None));
            if fill.Some? && now < fill.value.at + c.ttl then
              w'.answers == w.answers + [Answer(caller, fill.value.outcome, Window)] && w'.starts == w.starts && w'.cache == w.cache
            else
              && w'.answers == w.answers && w'.cache.pending.InFlight? && caller in w'.cache.pending.callers
              && w'.starts == w.starts + if w.cache.pending.Idle? then [now] else []
  {
    RunsKeep(c, Start(), es);
    FillHolds(c, Start(), es, None);
  }

  /** All who wait on a run get its outcome, in the order they came, and nobody else does. */
  lemma WaitersAreTold(c: Config, w: World, outcome: Outcome, now: nat)
    requires Can(w, Finish(outcome, now))
    ensures var w', callers := Do(c, w, Finish(outcome, now)), w.cache.pending.callers;
            && w'.cache.pending == Idle && w'.ended == w.ended + [outcome] && |w'.answers| == |w.answers| + |callers|
            && w'.answers[..|w.answers|] == w.answers
            && forall k :: 0 <= k < |callers| ==> w'.answers[|w.answers| + k] == Answer(callers[k], outcome, Shared(|w.ended|))
  {
    ToldShape(w.cache.pending.callers, outcome, |w.ended|);
  }

  // ---- a probe whose call throws ------------------------------------------------------------------------------

  /**
   * An async probe that throws, even at the instant it was started: its callers get the error, the way is
   * clear again, and the next caller outside a window starts a probe.
   */
  lemma AsyncThrowClears(c: Config, w: World, caller: Caller, error: Error, now: nat, next: Caller, later: nat, thrown: Option<Error>)
    requires w.cache.pending.Idle? && w.clock <= now <= later && !Fresh(w.cache, now)
    ensures var e1, e2 := Read(caller, now, None), Finish(Err(error), now);
            && Can(w, e1) && Can(Do(c, w, e1), e2)
            && var w2 := Do(c, Do(c, w, e1), e2);
            && w2.cache.pending == Idle && w2.starts == w.starts + [now] && w2.ended == w.ended + [Err(error)]
            && w2.answers == w.answers + [Answer(caller, Err(error), Shared(|w.ended|))]
            && var w3 := Do(c, w2, Read(next, later, thrown));
               if c.cacheFailures && later < now + c.ttl then w3.answers == w2.answers + [Answer(next, Err(error), Window)]
               else !Fresh(w2.cache, later) ==> w3.starts == w2.starts + [later]
  {
    assert Told([caller], Err(error), |w.ended|) == [Answer(caller, Err(error), Shared(|w.ended|))];
  }

  /** So no run of async probes gets stuck. */
  lemma AsyncNeverSticks(c: Config, es: seq<Event>)
    requires Legal(c, Start(), es) && Async(es)
    ensures !Exec(c, Start(), es).cache.pending.Stuck?
  {
    RunsKeep(c, Start(), es);
  }


  /** From then on no probe ever starts, and outside a primed or cached window every caller gets that error. */
  lemma {:induction false} StuckForGood(c: Config, w: World, es: seq<Event>)
    requires w.cache.pending.Stuck? && Legal(c, w, es)
    ensures var w' := Exec(c, w, es);
            && w'.cache.pending == w.cache.pending && w'.starts == w.starts && |w'.answers| >= |w.answers|
            && forall k :: |w.answers| <= k < |w'.answers| ==>
                 w'.answers[k].source.Window? || w'.answers[k] == Answer(w'.answers[k].caller, Err(w.cache.pending.error), Kept)
    decreases |es|
  {
    if es != [] {
      var w1 := Do(c, w, es[0]);
      StuckForGood(c, w1, es[1..]);
      StuckStepTells(c, w, es[0]);
      StuckPrefix(c, w1, es[1..]);
    }
  }

  lemma StuckStepTells(c: Config, w: World, e: Event)
    requires w.cache.pending.Stuck? && Can(w, e)
    ensures var w' := Do(c, w, e);
            && w'.cache.pending == w.cache.pending && w'.starts == w.starts && |w.answers| <= |w'.answers| <= |w.answers| + 1
            && forall k :: |w.answers| <= k < |w'.answers| ==>
                 w'.answers[k].source.Window? || w'.answers[k] == Answer(w'.answers[k].caller, Err(w.cache.pending.error), Kept)
  {
  }

  /** Answers already given stay as they were given. */
  lemma {:induction false} StuckPrefix(c: Config, w: World, es: seq<Event>)
    requires Legal(c, w, es)
    ensures |Exec(c, w, es).answers| >= |w.answers| && Exec(c, w, es).answers[..|w.answers|] == w.answers
    decreases |es|
  {
    if es != [] {
      var w1 := Do(c, w, es[0]);
      StuckPrefix(c, w1, es[1..]);
      assert Exec(c, w, es).answers[..|w.answers|] == Exec(c, w, es).answers[..|w1.answers|][..|w.answers|];
    }
  }

  /** The cache gets stuck exactly when the call of a probe that it started threw. */
  lemma {:induction false} StuckIff(c: Config, w: World, es: seq<Event>)
    requires !w.cache.pending.Stuck? && Legal(c, w, es)
    ensures Exec(c, w, es).cache.pending.Stuck? <==>
            exists k :: 0 <= k < |es| && es[k].Read? && es[k].thrown.Some? && Legal(c, w, es[..k])
                        && !Fresh(Exec(c, w, es[..k]).cache, es[k].now) && Exec(c, w, es[..k]).cache.pending.Idle?
    decreases |es|
  {
    if es != [] {
      var w1, rest := Do(c, w, es[0]), es[1..];
      forall k | 0 < k < |es|
        ensures es[..k][1..] == rest[..k - 1] && (Legal(c, w1, rest[..k - 1]) ==> Legal(c, w, es[..k]) && Exec(c, w, es[..k]) == Exec(c, w1, rest[..k - 1]))
        ensures Legal(c, w, es[..k]) ==> Legal(c, w1, rest[..k - 1])
      {
        assert es[..k][0] == es[0] && es[..k][1..] == rest[..k - 1];
      }
      assert es[..0] == [];
      if w1.cache.pending.Stuck? {
        StuckForGood(c, w1, rest);
        assert Legal(c, w, es[..0]) && Exec(c, w, es[..0]) == w;
      } else {
        StuckIff(c, w1, rest);
        if k :| 0 <= k < |rest| && rest[k].Read? && rest[k].thrown.Some? && Legal(c, w1, rest[..k])
                && !Fresh(Exec(c, w1, rest[..k]).cache, rest[k].now) && Exec(c, w1, rest[..k]).cache.pending.Idle? {
          assert es[k + 1] == rest[k] && es[..k + 1][1..] == rest[..k];
        }
        if k :| 0 <= k < |es| && es[k].Read? && es[k].thrown.Some? && Legal(c, w, es[..k])
                && !Fresh(Exec(c, w, es[..k]).cache, es[k].now) && Exec(c, w, es[..k]).cache.pending.Idle? {
          if k > 0 {
            assert rest[k - 1] == es[k];
          }
        }
      }
    }
  }
}
