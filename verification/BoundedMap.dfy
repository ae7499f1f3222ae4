/** Mapping with bounded concurrency (app/src/modules/ai/bounded-concurrency.ts), under every schedule. */
module BoundedMap {
  /** A JavaScript value, where undefined is what the code tests for. */
  datatype Js<+T> = Undefined | Defined(value: T)

  /** How the promise of an item settles. */
  datatype Settlement<+T, +E> = Resolved(result: Js<T>) | Rejected(reason: Js<E>)

  datatype Completion<+T, +E> = Values(values: seq<T>) | Thrown(error: E) | Incomplete

  datatype Event = Started(item: nat) | Settled(item: nat)

  // ---- what a trace of events says ----

  ghost function StartedItems(trace: seq<Event>): seq<nat> {
    if trace == [] then []
    else
      var last := trace[|trace| - 1];
      StartedItems(trace[..|trace| - 1]) + if last.Started? then [last.item] else []
  }

  ghost function InFlight(trace: seq<Event>): set<nat> {
    if trace == [] then {}
    else
      var last, before := trace[|trace| - 1], InFlight(trace[..|trace| - 1]);
      if last.Started? then before + {last.item} else before - {last.item}
  }

  ghost function SettledItems(trace: seq<Event>): set<nat> {
    if trace == [] then {}
    else
      var last, before := trace[|trace| - 1], SettledItems(trace[..|trace| - 1]);
      if last.Settled? then before + {last.item} else before
  }

  predicate Fails<I, T, E>(items: seq<I>, map_: I -> Settlement<T, E>, event: Event) {
    && event.Settled? && event.item < |items|
    && map_(items[event.item]).Rejected? && map_(items[event.item]).reason.Defined?
  }

  ghost predicate FailsFirst<I, T, E>(items: seq<I>, map_: I -> Settlement<T, E>, trace: seq<Event>, k: nat)
    requires k < |trace|
  {
    Fails(items, map_, trace[k]) && forall j :: 0 <= j < k ==> !Fails(items, map_, trace[j])
  }

  /** The first failure the trace records. */
  ghost function FirstFailure<I, T, E>(items: seq<I>, map_: I -> Settlement<T, E>, trace: seq<Event>): (r: Js<E>)
    ensures r.Undefined? <==> forall k :: 0 <= k < |trace| ==> !Fails(items, map_, trace[k])
  {
    if trace == [] then Undefined
    else
      var last, before := trace[|trace| - 1], FirstFailure(items, map_, trace[..|trace| - 1]);
      if before.Defined? then before
      else if Fails(items, map_, last) then map_(items[last.item]).reason
      else Undefined
  }

  lemma {:induction false} FirstFailureIsFirst<I, T, E>(items: seq<I>, map_: I -> Settlement<T, E>, trace: seq<Event>)
    returns (k: nat)
    requires FirstFailure(items, map_, trace).Defined?
    ensures k < |trace| && FailsFirst(items, map_, trace, k)
    ensures FirstFailure(items, map_, trace) == map_(items[trace[k].item]).reason
    decreases |trace|
  {
    var n := |trace| - 1;
    if FirstFailure(items, map_, trace[..n]).Defined? {
      k := FirstFailureIsFirst(items, map_, trace[..n]);
      assert FailsFirst(items, map_, trace[..n], k);
    } else {
      k := n;
      assert forall j :: 0 <= j < n ==> trace[..n][j] == trace[j];
    }
  }

  /** No item is started once a failure is recorded. */
  ghost predicate StopsAtFailure<I, T, E>(items: seq<I>, map_: I -> Settlement<T, E>, trace: seq<Event>) {
    forall k :: 0 <= k < |trace| && trace[k].Started? ==> FirstFailure(items, map_, trace[..k]).Undefined?
  }

  ghost predicate Bounded(trace: seq<Event>, bound: int) {
    forall k :: 0 <= k <= |trace| ==> |InFlight(trace[..k])| <= bound
  }

  ghost function UpTo(n: nat): (r: seq<nat>)
    ensures |r| == n
  {
    if n == 0 then [] else UpTo(n - 1) + [n - 1]
  }

  /** What one event adds. */
  lemma Extend<I, T, E>(items: seq<I>, map_: I -> Settlement<T, E>, trace: seq<Event>, event: Event)
    ensures StartedItems(trace + [event]) == StartedItems(trace) + if event.Started? then [event.item] else []
    ensures InFlight(trace + [event]) ==
            if event.Started? then InFlight(trace) + {event.item} else InFlight(trace) - {event.item}
    ensures SettledItems(trace + [event]) ==
            if event.Settled? then SettledItems(trace) + {event.item} else SettledItems(trace)
    ensures FirstFailure(items, map_, trace + [event]) ==
      if FirstFailure(items, map_, trace).Defined? then FirstFailure(items, map_, trace)
      else if Fails(items, map_, event) then map_(items[event.item]).reason
      else Undefined
  {
    assert (trace + [event])[..|trace|] == trace;
  }

  lemma ExtendBounded(trace: seq<Event>, event: Event, bound: int)
    requires Bounded(trace, bound) && |InFlight(trace + [event])| <= bound
    ensures Bounded(trace + [event], bound)
  {
    forall k | 0 <= k <= |trace + [event]| ensures |InFlight((trace + [event])[..k])| <= bound {
      if k <= |trace| {
        assert (trace + [event])[..k] == trace[..k];
      } else {
        assert (trace + [event])[..k] == trace + [event];
      }
    }
  }

  lemma ExtendStops<I, T, E>(items: seq<I>, map_: I -> Settlement<T, E>, trace: seq<Event>, event: Event)
    requires StopsAtFailure(items, map_, trace)
    requires event.Started? ==> FirstFailure(items, map_, trace).Undefined?
    ensures StopsAtFailure(items, map_, trace + [event])
  {
    assert forall k :: 0 <= k <= |trace| ==> (trace + [event])[..k] == trace[..k];
    assert trace[..|trace|] == trace;
  }

  // ---- the map ----

  predicate Resolves<T, E>(s: Settlement<T, E>) {
    s.Resolved? && s.result.Defined?
  }

  predicate AllResolve<I, T, E>(items: seq<I>, map_: I -> Settlement<T, E>) {
    forall i :: 0 <= i < |items| ==> Resolves(map_(items[i]))
  }

  /** Every rejection has a defined reason; for one without, the source forgets that it happened. */
  ghost predicate Reasoned<I, T, E>(items: seq<I>, map_: I -> Settlement<T, E>) {
    forall i :: 0 <= i < |items| && map_(items[i]).Rejected? ==> map_(items[i]).reason.Defined?
  }

  ghost predicate SomeRejected<I, T, E>(items: seq<I>, map_: I -> Settlement<T, E>) {
    exists i :: 0 <= i < |items| && map_(items[i]).Rejected?
  }

  /** The values in the order of the items. */
  function Mapped<I, T, E>(items: seq<I>, map_: I -> Settlement<T, E>): (values: seq<T>)
    requires AllResolve(items, map_)
    ensures |values| == |items|
    ensures forall i :: 0 <= i < |items| ==> values[i] == map_(items[i]).result.value
  {
    if items == [] then []
    else
      var n := |items| - 1;
      assert Resolves(map_(items[n]));
      Mapped(items[..n], map_) + [map_(items[n]).result.value]
  }

  function Minimum(a: int, b: int): int {
    if a < b then a else b
  }

  /** The defined results, in order. */
  function Present<T>(results: seq<Js<T>>): (values: seq<T>)
    ensures |values| <= |results|
    ensures |values| == |results| <==> forall i :: 0 <= i < |results| ==> results[i].Defined?
    ensures |values| == |results| ==> forall i :: 0 <= i < |results| ==> values[i] == results[i].value
  {
    if results == [] then []
    else
      var n := |results| - 1;
      Present(results[..n]) + if results[n].Defined? then [results[n].value] else []
  }

  function WorkerCount(concurrency: int, n: nat): nat {
    if concurrency < 0 then 0 else Minimum(concurrency, n)
  }

  function Holes<T>(n: nat): (r: seq<Js<T>>)
    ensures |r| == n
    ensures forall i :: 0 <= i < n ==> r[i] == Undefined
  {
    if n == 0 then [] else Holes(n - 1) + [Undefined]
  }

  /** The shared variables of the workers. `idle` workers are about to take an item. */
  datatype State<+T, +E> = State(next: nat, idle: nat, inFlight: set<nat>, results: seq<Js<T>>, failure: Js<E>)

  // ---- the steps of the workers ----

  /** A worker takes the next item, or returns for want of one or after a failure; or a promise settles. */
  datatype Move = Take | Leave | Settle(item: nat)

  predicate CanMove<I, T, E>(items: seq<I>, s: State<T, E>, m: Move) {
    match m
    case Take => s.idle > 0 && s.failure.Undefined? && s.next < |items|
    case Leave => s.idle > 0 && (s.failure.Defined? || s.next >= |items|)
    case Settle(i) => i in s.inFlight && i < |items| && i < |s.results|
  }

  function Taken<T, E>(s: State<T, E>): State<T, E>
    requires s.idle > 0
  {
    s.(next := s.next + 1, idle := s.idle - 1, inFlight := s.inFlight + {s.next})
  }

  /** After a rejection the worker of the item returns. */
  function SettledBy<T, E>(s: State<T, E>, i: nat, settlement: Settlement<T, E>): State<T, E>
    requires i < |s.results|
  {
    match settlement
    case Resolved(result) =>
      s.(inFlight := s.inFlight - {i}, results := s.results[i := result], idle := s.idle + 1)
    case Rejected(reason) =>
      s.(inFlight := s.inFlight - {i}, failure := if s.failure.Undefined? then reason else s.failure)
  }

  function After<I, T, E>(items: seq<I>, map_: I -> Settlement<T, E>, s: State<T, E>, m: Move): State<T, E>
    requires CanMove(items, s, m)
  {
    match m
    case Take => Taken(s)
    case Leave => s.(idle := s.idle - 1)
    case Settle(i) => SettledBy(s, i, map_(items[i]))
  }

  /** The events a move adds to the trace. */
  function Emitted<T, E>(s: State<T, E>, m: Move): seq<Event> {
    match m
    case Take => [Started(s.next)]
    case Leave => []
    case Settle(i) => [Settled(i)]
  }

  datatype Config<+T, +E> = Config(state: State<T, E>, trace: seq<Event>)

  function First<I, T, E>(concurrency: int, items: seq<I>): Config<T, E> {
    Config(State(0, WorkerCount(concurrency, |items|), {}, Holes(|items|), Undefined), [])
  }

  ghost predicate Leads<I, T, E>(items: seq<I>, map_: I -> Settlement<T, E>, k: Config<T, E>, m: Move,
                                 k': Config<T, E>)
  {
    && CanMove(items, k.state, m)
    && k' == Config(After(items, map_, k.state, m), k.trace + Emitted(k.state, m))
  }

  /** A schedule: any sequence of possible moves. */
  ghost predicate Runs<I, T(!new), E(!new)>(concurrency: int, items: seq<I>, map_: I -> Settlement<T, E>,
                                            moves: seq<Move>, k: Config<T, E>)
    decreases |moves|
  {
    if moves == [] then k == First(concurrency, items)
    else
      var before, last := moves[..|moves| - 1], moves[|moves| - 1];
      exists mid: Config<T, E> :: Runs(concurrency, items, map_, before, mid) && Leads(items, map_, mid, last, k)
  }

  /** Every worker has returned. */
  predicate Over<T, E>(s: State<T, E>) { s.idle == 0 && s.inFlight == {} }

  /** What the call then settles with. */
  function Result<I, T, E>(items: seq<I>, s: State<T, E>): Completion<T, E> {
    if s.failure.Defined? then Thrown(s.failure.value)
    else if |Present(s.results)| != |items| then Incomplete
    else Values(Present(s.results))
  }

  // ---- what every schedule keeps ----

  ghost predicate Shape<I, T, E>(items: seq<I>, map_: I -> Settlement<T, E>, s: State<T, E>, trace: seq<Event>) {
    && s.next <= |items| == |s.results|
    && StartedItems(trace) == UpTo(s.next)
    && s.inFlight == InFlight(trace)
    && s.failure == FirstFailure(items, map_, trace)
    && (forall i :: i in s.inFlight ==> i < s.next && i !in SettledItems(trace))
    && (forall i :: i in SettledItems(trace) ==> i < s.next)
    && (forall i :: 0 <= i < s.next && i !in SettledItems(trace) ==> i in s.inFlight)
  }

  /** Each slot holds what its item resolved to, once it has settled. */
  ghost predicate Filled<I, T, E>(items: seq<I>, map_: I -> Settlement<T, E>, s: State<T, E>, trace: seq<Event>) {
    && |s.results| == |items|
    && forall i :: 0 <= i < |items| ==>
         s.results[i] ==
           if i in SettledItems(trace) && map_(items[i]).Resolved? then map_(items[i]).result else Undefined
  }

  ghost predicate Disciplined<I, T, E>(items: seq<I>, map_: I -> Settlement<T, E>, trace: seq<Event>, bound: int) {
    StopsAtFailure(items, map_, trace) && Bounded(trace, bound)
  }

  lemma TakeKeepsShape<I, T, E>(items: seq<I>, map_: I -> Settlement<T, E>, s: State<T, E>, trace: seq<Event>)
    requires Shape(items, map_, s, trace) && s.idle > 0 && s.failure.Undefined? && s.next < |items|
    ensures Shape(items, map_, Taken(s), trace + [Started(s.next)])
  {
    Extend(items, map_, trace, Started(s.next));
  }

  lemma TakeKeepsFilled<I, T, E>(items: seq<I>, map_: I -> Settlement<T, E>, s: State<T, E>, trace: seq<Event>)
    requires Filled(items, map_, s, trace) && s.idle > 0
    ensures Filled(items, map_, Taken(s), trace + [Started(s.next)])
  {
    Extend(items, map_, trace, Started(s.next));
  }

  lemma TakeStaysDisciplined<I, T, E>(items: seq<I>, map_: I -> Settlement<T, E>, s: State<T, E>, trace: seq<Event>,
                                      bound: int)
    requires Shape(items, map_, s, trace) && Disciplined(items, map_, trace, bound)
    requires s.idle > 0 && s.failure.Undefined? && s.idle + |s.inFlight| <= bound
    ensures Disciplined(items, map_, trace + [Started(s.next)], bound)
  {
    Extend(items, map_, trace, Started(s.next));
    ExtendBounded(trace, Started(s.next), bound);
    ExtendStops(items, map_, trace, Started(s.next));
  }

  lemma SettleKeeps<I, T, E>(items: seq<I>, map_: I -> Settlement<T, E>, s: State<T, E>, i: nat, trace: seq<Event>)
    requires Shape(items, map_, s, trace) && Filled(items, map_, s, trace) && i in s.inFlight
    ensures var s' := SettledBy(s, i, map_(items[i]));
            Shape(items, map_, s', trace + [Settled(i)]) && Filled(items, map_, s', trace + [Settled(i)])
  {
    Extend(items, map_, trace, Settled(i));
  }

  lemma SettleStaysDisciplined<I, T, E>(items: seq<I>, map_: I -> Settlement<T, E>, s: State<T, E>, i: nat,
                                        trace: seq<Event>, bound: int)
    requires Shape(items, map_, s, trace) && Disciplined(items, map_, trace, bound)
    requires i in s.inFlight && s.idle + |s.inFlight| <= bound
    ensures Disciplined(items, map_, trace + [Settled(i)], bound)
  {
    Extend(items, map_, trace, Settled(i));
    ExtendBounded(trace, Settled(i), bound);
    ExtendStops(items, map_, trace, Settled(i));
  }

  /** No worker gives up early unless a failure is recorded or forgotten; without workers nothing is taken. */
  ghost predicate Progressing<I, T, E>(items: seq<I>, map_: I -> Settlement<T, E>, s: State<T, E>, workers: nat) {
    && s.idle + |s.inFlight| <= workers
    && (Reasoned(items, map_) && s.failure.Undefined? && s.next < |items| ==> s.idle + |s.inFlight| == workers)
    && (s.next > 0 ==> workers > 0)
  }

  ghost predicate Good<I, T, E>(items: seq<I>, map_: I -> Settlement<T, E>, k: Config<T, E>, workers: nat) {
    && Shape(items, map_, k.state, k.trace)
    && Filled(items, map_, k.state, k.trace)
    && Disciplined(items, map_, k.trace, workers)
    && Progressing(items, map_, k.state, workers)
  }

  /** What the call settles with, given the first failure it recorded. */
  function Completed<I, T, E>(concurrency: int, items: seq<I>, map_: I -> Settlement<T, E>,
                              first: Js<E>): Completion<T, E>
  {
    if first.Defined? then Thrown(first.value)
    else if AllResolve(items, map_) && (concurrency >= 1 || items == []) then Values(Mapped(items, map_))
    else Incomplete
  }

  lemma NothingFails<I, T, E>(items: seq<I>, map_: I -> Settlement<T, E>, trace: seq<Event>)
    requires AllResolve(items, map_)
    ensures FirstFailure(items, map_, trace).Undefined?
  {
    forall k | 0 <= k < |trace| ensures !Fails(items, map_, trace[k]) {
      assert trace[k].item < |items| ==> Resolves(map_(items[trace[k].item]));
    }
  }

  lemma {:induction false} FirstFailureIsSomeones<I, T, E>(items: seq<I>, map_: I -> Settlement<T, E>,
                                                           trace: seq<Event>)
    requires FirstFailure(items, map_, trace).Defined?
    ensures exists item :: item in items && map_(item) == Rejected(FirstFailure(items, map_, trace))
    decreases |trace|
  {
    var last := trace[|trace| - 1];
    if FirstFailure(items, map_, trace[..|trace| - 1]).Defined? {
      FirstFailureIsSomeones(items, map_, trace[..|trace| - 1]);
    } else {
      assert items[last.item] in items;
    }
  }

  lemma PresentIsMapped<I, T, E>(items: seq<I>, map_: I -> Settlement<T, E>, s: State<T, E>, trace: seq<Event>)
    requires Shape(items, map_, s, trace) && Filled(items, map_, s, trace)
    requires AllResolve(items, map_) && s.next == |items| && s.inFlight == {}
    ensures Present(s.results) == Mapped(items, map_)
  {
    forall i | 0 <= i < |items| ensures s.results[i] == map_(items[i]).result && s.results[i].Defined? {
      assert Resolves(map_(items[i])) && i in SettledItems(trace);
    }
  }

  lemma SomethingMissing<I, T, E>(items: seq<I>, map_: I -> Settlement<T, E>, s: State<T, E>, trace: seq<Event>)
    requires Shape(items, map_, s, trace) && Filled(items, map_, s, trace)
    requires !AllResolve(items, map_) || s.next < |items|
    ensures |Present(s.results)| != |items|
  {
    if !AllResolve(items, map_) {
      var i :| 0 <= i < |items| && !Resolves(map_(items[i]));
      assert s.results[i].Undefined?;
    } else {
      assert s.next !in SettledItems(trace);
      assert s.results[s.next].Undefined?;
    }
  }

  lemma TakeIsGood<I, T, E>(items: seq<I>, map_: I -> Settlement<T, E>, k: Config<T, E>, workers: nat)
    requires Good(items, map_, k, workers) && CanMove(items, k.state, Take)
    ensures Good(items, map_, Config(Taken(k.state), k.trace + [Started(k.state.next)]), workers)
  {
    TakeKeepsShape(items, map_, k.state, k.trace);
    TakeKeepsFilled(items, map_, k.state, k.trace);
    TakeStaysDisciplined(items, map_, k.state, k.trace, workers);
  }

  lemma LeaveIsGood<I, T, E>(items: seq<I>, map_: I -> Settlement<T, E>, k: Config<T, E>, workers: nat)
    requires Good(items, map_, k, workers) && CanMove(items, k.state, Leave)
    ensures Good(items, map_, Config(k.state.(idle := k.state.idle - 1), k.trace), workers)
  {
  }

  lemma SettleIsGood<I, T, E>(items: seq<I>, map_: I -> Settlement<T, E>, k: Config<T, E>, i: nat, workers: nat)
    requires Good(items, map_, k, workers) && CanMove(items, k.state, Settle(i))
    ensures Good(items, map_, Config(SettledBy(k.state, i, map_(items[i])), k.trace + [Settled(i)]), workers)
  {
    SettleKeeps(items, map_, k.state, i, k.trace);
    SettleStaysDisciplined(items, map_, k.state, i, k.trace, workers);
  }

  lemma MoveIsGood<I, T, E>(items: seq<I>, map_: I -> Settlement<T, E>, k: Config<T, E>, m: Move, k': Config<T, E>,
                            workers: nat)
    requires Good(items, map_, k, workers) && Leads(items, map_, k, m, k')
    ensures Good(items, map_, k', workers)
  {
    match m
    case Take => TakeIsGood(items, map_, k, workers);
    case Leave =>
      LeaveIsGood(items, map_, k, workers);
      assert k.trace + [] == k.trace;
    case Settle(i) => SettleIsGood(items, map_, k, i, workers);
  }

  lemma FirstIsGood<I, T, E>(concurrency: int, items: seq<I>, map_: I -> Settlement<T, E>)
    ensures Good(items, map_, First(concurrency, items), WorkerCount(concurrency, |items|))
  {
  }

  /** How many moves can still come. */
  function Remaining<I, T, E>(items: seq<I>, s: State<T, E>): int {
    2 * (|items| - s.next) + |s.inFlight| + s.idle + |s.inFlight|
  }

  lemma MoveUsesUp<I, T, E>(items: seq<I>, map_: I -> Settlement<T, E>, k: Config<T, E>, m: Move, k': Config<T, E>)
    requires Shape(items, map_, k.state, k.trace) && Leads(items, map_, k, m, k')
    ensures Remaining(items, k'.state) < Remaining(items, k.state)
  {
    match m
    case Take => assert k'.state.inFlight - {k.state.next} == k.state.inFlight;
    case Leave =>
    case Settle(i) => assert k.state.inFlight == k'.state.inFlight + {i};
  }

  lemma {:induction false} RunsAreGood<I, T(!new), E(!new)>(concurrency: int, items: seq<I>,
                                                            map_: I -> Settlement<T, E>, moves: seq<Move>,
                                                            k: Config<T, E>)
    requires Runs(concurrency, items, map_, moves, k)
    ensures Good(items, map_, k, WorkerCount(concurrency, |items|))
    ensures |moves| + Remaining(items, k.state) <= 2 * |items| + WorkerCount(concurrency, |items|)
    decreases |moves|
  {
    if moves == [] {
      FirstIsGood(concurrency, items, map_);
    } else {
      var before, last := moves[..|moves| - 1], moves[|moves| - 1];
      var mid: Config<T, E> :| Runs(concurrency, items, map_, before, mid) && Leads(items, map_, mid, last, k);
      RunsAreGood(concurrency, items, map_, before, mid);
      MoveIsGood(items, map_, mid, last, k, WorkerCount(concurrency, |items|));
      MoveUsesUp(items, map_, mid, last, k);
    }
  }

  lemma RunsOn<I, T(!new), E(!new)>(concurrency: int, items: seq<I>, map_: I -> Settlement<T, E>,
                                    moves: seq<Move>, k: Config<T, E>, m: Move, k': Config<T, E>)
    requires Runs(concurrency, items, map_, moves, k) && Leads(items, map_, k, m, k')
    ensures Runs(concurrency, items, map_, moves + [m], k')
  {
    assert (moves + [m])[..|moves|] == moves && (moves + [m])[|moves|] == m;
  }

  /** Until every worker has returned, some move is possible. */
  lemma NeverStuck<I, T, E>(items: seq<I>, map_: I -> Settlement<T, E>, k: Config<T, E>, workers: nat)
    requires Good(items, map_, k, workers)
    ensures Over(k.state) <==> forall m :: !CanMove(items, k.state, m)
  {
    if k.state.idle > 0 {
      assert CanMove(items, k.state, Take) || CanMove(items, k.state, Leave);
    } else if i :| i in k.state.inFlight {
      assert CanMove(items, k.state, Settle(i));
    }
  }

  lemma AllResolveIsReasoned<I, T, E>(items: seq<I>, map_: I -> Settlement<T, E>)
    requires AllResolve(items, map_)
    ensures Reasoned(items, map_) && !SomeRejected(items, map_)
  {
    assert forall i :: 0 <= i < |items| ==> Resolves(map_(items[i]));
  }

  lemma {:induction false} SettledRejectionFails<I, T, E>(items: seq<I>, map_: I -> Settlement<T, E>,
                                                          trace: seq<Event>, i: nat)
    requires i in SettledItems(trace) && i < |items| && map_(items[i]).Rejected? && map_(items[i]).reason.Defined?
    ensures FirstFailure(items, map_, trace).Defined?
    decreases |trace|
  {
    var n := |trace| - 1;
    if i in SettledItems(trace[..n]) {
      SettledRejectionFails(items, map_, trace[..n], i);
    }
  }

  /** With a worker and no forgotten rejection, the call throws exactly if some item is rejected. */
  lemma ThrowsIffRejected<I, T, E>(concurrency: int, items: seq<I>, map_: I -> Settlement<T, E>, k: Config<T, E>)
    requires Good(items, map_, k, WorkerCount(concurrency, |items|)) && Over(k.state)
    requires concurrency >= 1 && Reasoned(items, map_)
    ensures k.state.failure.Defined? <==> SomeRejected(items, map_)
  {
    if k.state.failure.Defined? {
      FirstFailureIsSomeones(items, map_, k.trace);
      var item :| item in items && map_(item).Rejected?;
      var i :| 0 <= i < |items| && items[i] == item;
    } else if i :| 0 <= i < |items| && map_(items[i]).Rejected? {
      assert i in SettledItems(k.trace);
      SettledRejectionFails(items, map_, k.trace, i);
    }
  }

  lemma OverIsCompleted<I, T, E>(concurrency: int, items: seq<I>, map_: I -> Settlement<T, E>, k: Config<T, E>)
    requires Good(items, map_, k, WorkerCount(concurrency, |items|)) && Over(k.state)
    ensures Result(items, k.state) == Completed(concurrency, items, map_, FirstFailure(items, map_, k.trace))
  {
    if k.state.failure.Undefined? {
      if AllResolve(items, map_) {
        AllResolveIsReasoned(items, map_);
      }
      if AllResolve(items, map_) && k.state.next == |items| {
        PresentIsMapped(items, map_, k.state, k.trace);
      } else {
        SomethingMissing(items, map_, k.state, k.trace);
      }
    }
  }

  /** What holds at the end of a call. */
  ghost predicate Kept<I, T, E>(concurrency: int, items: seq<I>, map_: I -> Settlement<T, E>, trace: seq<Event>,
                                r: Completion<T, E>)
  {
    && InFlight(trace) == {}
    && r == Completed(concurrency, items, map_, FirstFailure(items, map_, trace))
    && (r.Values? <==> AllResolve(items, map_) && (concurrency >= 1 || items == []))
    && (r.Values? ==> r.values == Mapped(items, map_))
    && (concurrency >= 1 && Reasoned(items, map_) ==> (r.Thrown? <==> SomeRejected(items, map_)))
    && (r.Thrown? <==> exists k :: 0 <= k < |trace| && Fails(items, map_, trace[k]))
    && (r.Thrown? ==> exists item :: item in items && map_(item) == Rejected(Defined(r.error)))
    && (r.Thrown? ==>
          exists k :: 0 <= k < |trace| && FailsFirst(items, map_, trace, k)
                      && map_(items[trace[k].item]).reason == Defined(r.error))
  }

  lemma {:induction false} IdleStaysEmpty<I, T(!new), E(!new)>(concurrency: int, items: seq<I>,
                                                               map_: I -> Settlement<T, E>, moves: seq<Move>,
                                                               k: Config<T, E>)
    requires Runs(concurrency, items, map_, moves, k) && concurrency <= 0
    ensures k == First(concurrency, items)
    decreases |moves|
  {
    if moves != [] {
      var before, last := moves[..|moves| - 1], moves[|moves| - 1];
      var mid: Config<T, E> :| Runs(concurrency, items, map_, before, mid) && Leads(items, map_, mid, last, k);
      IdleStaysEmpty(concurrency, items, map_, before, mid);
    }
  }

  /** The bound is reached: some schedule has as many items in flight as it allows. */
  lemma {:induction false} AllStart<I, T(!new), E(!new)>(concurrency: int, items: seq<I>, map_: I -> Settlement<T, E>,
                                                         n: nat)
    returns (moves: seq<Move>, k: Config<T, E>)
    requires n <= |items| && n <= concurrency
    ensures Runs(concurrency, items, map_, moves, k)
    ensures k.state.next == n && k.state.idle + n == WorkerCount(concurrency, |items|) && k.state.failure.Undefined?
    ensures |InFlight(k.trace)| == n && forall i :: i in InFlight(k.trace) ==> i < n
    decreases n
  {
    if n == 0 {
      moves, k := [], First(concurrency, items);
    } else {
      var before, mid := AllStart(concurrency, items, map_, n - 1);
      k := Config(Taken(mid.state), mid.trace + [Started(mid.state.next)]);
      moves := before + [Take];
      Extend(items, map_, mid.trace, Started(mid.state.next));
      RunsOn(concurrency, items, map_, before, mid, Take, k);
    }
  }

  lemma BoundIsReached<I, T(!new), E(!new)>(concurrency: int, items: seq<I>, map_: I -> Settlement<T, E>)
    returns (moves: seq<Move>, k: Config<T, E>)
    requires concurrency >= 0
    ensures Runs(concurrency, items, map_, moves, k)
    ensures |InFlight(k.trace)| == if concurrency < |items| then concurrency else |items|
  {
    moves, k := AllStart(concurrency, items, map_, if concurrency < |items| then concurrency else |items|);
  }

  /**
   Every schedule, finished or not: items start in order, each at most once and none after a failure is recorded; no
   more are in flight than the bound allows; it takes at most two moves for each item and one for each worker, and until
   then some move is possible.  When every worker has returned, none is in flight; the call throws the first failure
   recorded, and otherwise returns the mapped items in their own order, exactly when all of them resolve.
   */
  lemma EverySchedule<I, T(!new), E(!new)>(concurrency: int, items: seq<I>, map_: I -> Settlement<T, E>,
                                           moves: seq<Move>, k: Config<T, E>)
    requires Runs(concurrency, items, map_, moves, k)
    ensures StartedItems(k.trace) == UpTo(k.state.next) && k.state.next <= |items|
    ensures StopsAtFailure(items, map_, k.trace)
    ensures forall j :: 0 <= j <= |k.trace| ==> |InFlight(k.trace[..j])| <= |items|
    ensures concurrency >= 0 ==> forall j :: 0 <= j <= |k.trace| ==> |InFlight(k.trace[..j])| <= concurrency
    ensures concurrency <= 0 ==> k.trace == []
    ensures Bounded(k.trace, WorkerCount(concurrency, |items|))
    ensures |moves| <= 2 * |items| + WorkerCount(concurrency, |items|)
    ensures Over(k.state) <==> forall m :: !CanMove(items, k.state, m)
    ensures Over(k.state) ==> Kept(concurrency, items, map_, k.trace, Result(items, k.state))
  {
    RunsAreGood(concurrency, items, map_, moves, k);
    NeverStuck(items, map_, k, WorkerCount(concurrency, |items|));
    forall j | 0 <= j <= |k.trace|
      ensures |InFlight(k.trace[..j])| <= |items|
      ensures concurrency >= 0 ==> |InFlight(k.trace[..j])| <= concurrency
    {
      assert |InFlight(k.trace[..j])| <= WorkerCount(concurrency, |items|);
    }
    if concurrency <= 0 {
      IdleStaysEmpty(concurrency, items, map_, moves, k);
    }
    if Over(k.state) {
      OverIsKept(concurrency, items, map_, k);
    }
  }

  lemma OverIsKept<I, T, E>(concurrency: int, items: seq<I>, map_: I -> Settlement<T, E>, k: Config<T, E>)
    requires Good(items, map_, k, WorkerCount(concurrency, |items|)) && Over(k.state)
    ensures Kept(concurrency, items, map_, k.trace, Result(items, k.state))
  {
    OverIsCompleted(concurrency, items, map_, k);
    if AllResolve(items, map_) {
      NothingFails(items, map_, k.trace);
    }
    if concurrency >= 1 && Reasoned(items, map_) {
      ThrowsIffRejected(concurrency, items, map_, k);
    }
    if FirstFailure(items, map_, k.trace).Defined? {
      FirstFailureIsSomeones(items, map_, k.trace);
      var first := FirstFailureIsFirst(items, map_, k.trace);
      assert FailsFirst(items, map_, k.trace, first);
    }
  }

  // ---- the code ----

  /** The promise of an item in flight settles, and its worker goes on or, after a rejection, returns. */
  method SettleItem<I, T, E>(items: seq<I>, map_: I -> Settlement<T, E>, s: State<T, E>, i: nat)
      returns (s': State<T, E>)
    requires CanMove(items, s, Settle(i))
    ensures s' == After(items, map_, s, Settle(i))
  {
    s' := s.(inFlight := s.inFlight - {i});
    match map_(items[i]) {
      case Resolved(result) =>
        s' := s'.(results := s.results[i := result], idle := s.idle + 1);
      case Rejected(reason) =>
        if s.failure.Undefined? {
          s' := s'.(failure := reason);
        }
    }
  }

  lemma InFlightCanSettle<I, T(!new), E(!new)>(concurrency: int, items: seq<I>, map_: I -> Settlement<T, E>,
                                               moves: seq<Move>, k: Config<T, E>)
    requires Runs(concurrency, items, map_, moves, k)
    ensures forall i :: i in k.state.inFlight ==> CanMove(items, k.state, Settle(i))
  {
    RunsAreGood(concurrency, items, map_, moves, k);
  }

  /** One step of some worker, chosen freely. */
  method Step<I, T, E>(items: seq<I>, map_: I -> Settlement<T, E>, s: State<T, E>)
      returns (s': State<T, E>, ghost m: Move)
    requires !Over(s) && forall i :: i in s.inFlight ==> CanMove(items, s, Settle(i))
    ensures CanMove(items, s, m) && s' == After(items, map_, s, m)
  {
    m := Leave;
    if
    case s.idle > 0 && s.failure.Undefined? && s.next < |items| =>
      m := Take;
      s' := Taken(s);
    case s.idle > 0 && (s.failure.Defined? || s.next >= |items|) =>
      s' := s.(idle := s.idle - 1);
    case s.inFlight != {} =>
      var i :| i in s.inFlight;
      m := Settle(i);
      s' := SettleItem(items, map_, s, i);
  }

  /** The call runs some schedule to its end, and settles with its result. */
  method MapWithBoundedConcurrency<I, T(!new), E(!new)>(concurrency: int, items: seq<I>, map_: I -> Settlement<T, E>)
      returns (r: Completion<T, E>, ghost moves: seq<Move>, ghost k: Config<T, E>)
    ensures Runs(concurrency, items, map_, moves, k) && Over(k.state) && r == Result(items, k.state)
    ensures StartedItems(k.trace) == UpTo(k.state.next) && k.state.next <= |items|
    ensures StopsAtFailure(items, map_, k.trace) && Bounded(k.trace, WorkerCount(concurrency, |items|))
    ensures forall j :: 0 <= j <= |k.trace| ==> |InFlight(k.trace[..j])| <= |items|
    ensures concurrency >= 0 ==> forall j :: 0 <= j <= |k.trace| ==> |InFlight(k.trace[..j])| <= concurrency
    ensures Kept(concurrency, items, map_, k.trace, r)
  {
    var workerCount := Minimum(concurrency, |items|);
    if workerCount < 0 {
      workerCount := 0;
    }
    var s: State<T, E> := State(0, workerCount, {}, Holes(|items|), Undefined);
    moves, k := [], Config(s, []);
    while !Over(s)
      invariant k.state == s && Runs(concurrency, items, map_, moves, k)
      invariant |moves| <= 2 * |items| + WorkerCount(concurrency, |items|)
      decreases 2 * |items| + WorkerCount(concurrency, |items|) - |moves|
    {
      InFlightCanSettle(concurrency, items, map_, moves, k);
      ghost var before, m := k, Leave;
      s, m := Step(items, map_, s);
      k := Config(s, before.trace + Emitted(before.state, m));
      RunsOn(concurrency, items, map_, moves, before, m, k);
      moves := moves + [m];
      EverySchedule(concurrency, items, map_, moves, k);
    }
    EverySchedule(concurrency, items, map_, moves, k);
    if s.failure.Defined? {
      return Thrown(s.failure.value), moves, k;
    }
    var completed := Present(s.results);
    r := if |completed| != |items| then Incomplete else Values(completed);
  }
}
