/**
 The in-process event bus: fan-out to named consumers, at-least-once redelivery,
 per-consumer deduplication. A delivery looks the event up among those already
 handled, awaits the handler, and only then marks it; while one handler is
 awaited other deliveries begin and end. So each delivery is two events, and a
 run is any interleaving of them. Whether a handler raises is not the bus's to
 decide: the end of a delivery carries it.
 */
module EventBus {
  import opened Seqs

  type EventId = nat

  datatype Event = Event(id: EventId, subject: string, payload: string)

  /** A registered consumer; `alerts` are the lags reported to the alert sink under its name. */
  datatype Consumer = Consumer(threshold: int, failures: nat, handled: seq<EventId>, alerts: seq<nat>)

  /** One call of `deliver`: what the publish or redelivery numbered `fan` hands to one consumer. */
  datatype Delivery = Delivery(name: string, id: EventId, fan: nat)

  datatype Op = Begin(dl: Delivery) | End(dl: Delivery, ok: bool)

  /** `open` are the deliveries whose handler is running. */
  datatype Bus = Bus(
    consumers: map<string, Consumer>, seen: set<(string, EventId)>, begun: set<Delivery>, open: set<Delivery>)

  function Succeed(c: Consumer, id: EventId): Consumer {
    c.(handled := c.handled + [id], failures := 0)
  }

  function Fail(c: Consumer): Consumer {
    var n := c.failures + 1;
    c.(failures := n, alerts := if n >= c.threshold then c.alerts + [n] else c.alerts)
  }

  // ----- the bus -----

  /** A delivery begins once, to a registered consumer; it ends if its handler is running. */
  function Step(b: Bus, op: Op): Bus {
    var dl := op.dl;
    if dl.name !in b.consumers then b
    else match op
      case Begin(_) =>
        if dl in b.begun then b
        else b.(begun := b.begun + {dl}, open := if (dl.name, dl.id) in b.seen then b.open else b.open + {dl})
      case End(_, ok) =>
        if dl !in b.open then b
        else if ok then
          b.(consumers := b.consumers[dl.name := Succeed(b.consumers[dl.name], dl.id)],
             seen := b.seen + {(dl.name, dl.id)}, open := b.open - {dl})
        else
          b.(consumers := b.consumers[dl.name := Fail(b.consumers[dl.name])], open := b.open - {dl})
  }

  function Start(thresholds: map<string, int>): Bus {
    Bus(map n | n in thresholds :: Consumer(thresholds[n], 0, [], []), {}, {}, {})
  }

  function Run(thresholds: map<string, int>, h: seq<Op>): Bus {
    if h == [] then Start(thresholds) else Step(Run(thresholds, h[..|h| - 1]), h[|h| - 1])
  }

  lemma RunSnoc(thresholds: map<string, int>, h: seq<Op>, op: Op)
    ensures Run(thresholds, h + [op]) == Step(Run(thresholds, h), op)
  {
    assert (h + [op])[..|h|] == h;
  }

  // ----- one consumer on its own -----

  datatype Solo = Solo(consumer: Consumer, seen: set<EventId>, begun: set<Delivery>, open: set<Delivery>)

  function Take(s: Solo, op: Op): Solo {
    var dl := op.dl;
    match op
    case Begin(_) =>
      if dl in s.begun then s
      else s.(begun := s.begun + {dl}, open := if dl.id in s.seen then s.open else s.open + {dl})
    case End(_, ok) =>
      if dl !in s.open then s
      else if ok then
        s.(consumer := Succeed(s.consumer, dl.id), seen := s.seen + {dl.id}, open := s.open - {dl})
      else s.(consumer := Fail(s.consumer), open := s.open - {dl})
  }

  function Fresh(threshold: int): Solo {
    Solo(Consumer(threshold, 0, [], []), {}, {}, {})
  }

  function TakeAll(threshold: int, h: seq<Op>): Solo {
    if h == [] then Fresh(threshold) else Take(TakeAll(threshold, h[..|h| - 1]), h[|h| - 1])
  }

  // ----- isolation -----

  function SeenBy(seen: set<(string, EventId)>, name: string): set<EventId> {
    set p | p in seen && p.0 == name :: p.1
  }

  function DeliveriesTo(ds: set<Delivery>, name: string): set<Delivery> {
    set dl | dl in ds && dl.name == name
  }

  /** What concerns one consumer, out of stores that all consumers share. */
  function View(b: Bus, name: string): Solo
    requires name in b.consumers
  {
    Solo(b.consumers[name], SeenBy(b.seen, name), DeliveriesTo(b.begun, name), DeliveriesTo(b.open, name))
  }

  lemma InSeenBy(seen: set<(string, EventId)>, name: string, id: EventId)
    ensures id in SeenBy(seen, name) <==> (name, id) in seen
  {
    if (name, id) in seen {
      assert (name, id).1 == id;
    }
  }

  lemma SeenByAdd(seen: set<(string, EventId)>, name: string, dl: Delivery)
    ensures SeenBy(seen + {(dl.name, dl.id)}, name) == if dl.name == name then SeenBy(seen, name) + {dl.id} else SeenBy(seen, name)
  {
    forall id
      ensures id in SeenBy(seen + {(dl.name, dl.id)}, name)
         <==> id in (if dl.name == name then SeenBy(seen, name) + {dl.id} else SeenBy(seen, name))
    {
      InSeenBy(seen + {(dl.name, dl.id)}, name, id);
      InSeenBy(seen, name, id);
    }
  }

  lemma DeliveriesToChange(ds: set<Delivery>, name: string, dl: Delivery)
    ensures DeliveriesTo(ds + {dl}, name) == if dl.name == name then DeliveriesTo(ds, name) + {dl} else DeliveriesTo(ds, name)
    ensures DeliveriesTo(ds - {dl}, name) == if dl.name == name then DeliveriesTo(ds, name) - {dl} else DeliveriesTo(ds, name)
  {
  }

  /** A step is the addressed consumer's own and leaves every other consumer alone. */
  lemma StepIsolated(b: Bus, op: Op, name: string)
    requires name in b.consumers
    ensures name in Step(b, op).consumers
    ensures View(Step(b, op), name) == if op.dl.name == name then Take(View(b, name), op) else View(b, name)
  {
    InSeenBy(b.seen, name, op.dl.id);
    SeenByAdd(b.seen, name, op.dl);
    DeliveriesToChange(b.begun, name, op.dl);
    DeliveriesToChange(b.open, name, op.dl);
  }

  /** The events of a run that are about one consumer. */
  function Own(h: seq<Op>, name: string): seq<Op> {
    if h == [] then [] else Own(h[..|h| - 1], name) + if h[|h| - 1].dl.name == name then [h[|h| - 1]] else []
  }

  /** In any interleaving each consumer is exactly what its own deliveries make of it. */
  lemma {:induction false} ConsumerReplay(thresholds: map<string, int>, h: seq<Op>, name: string)
    requires name in thresholds
    ensures name in Run(thresholds, h).consumers
    ensures View(Run(thresholds, h), name) == TakeAll(thresholds[name], Own(h, name))
  {
    if h == [] {
    } else {
      var p, op := h[..|h| - 1], h[|h| - 1];
      ConsumerReplay(thresholds, p, name);
      StepIsolated(Run(thresholds, p), op, name);
      var own := Own(h, name);
      if op.dl.name == name {
        assert own[..|own| - 1] == Own(p, name);
      } else {
        assert own == Own(p, name);
      }
    }
  }

  /**
   Isolation: a consumer ends a run in the state it would have if it were the
   only one registered, however the others' handlers are interleaved and fail.
   */
  lemma Isolation(thresholds: map<string, int>, h: seq<Op>, name: string)
    requires name in thresholds
    ensures name in Run(thresholds, h).consumers && name in Run(map[name := thresholds[name]], h).consumers
    ensures View(Run(thresholds, h), name) == View(Run(map[name := thresholds[name]], h), name)
  {
    ConsumerReplay(thresholds, h, name);
    ConsumerReplay(map[name := thresholds[name]], h, name);
  }

  // ----- the reference for one consumer, read off its history -----

  predicate BegunIn(h: seq<Op>, dl: Delivery) {
    exists i | 0 <= i < |h| :: h[i] == Begin(dl)
  }

  /** Some delivery of the event ended without raising. */
  predicate HandledIn(h: seq<Op>, id: EventId)
    decreases |h|
  {
    if h == [] then false else
      var p, op := h[..|h| - 1], h[|h| - 1];
      HandledIn(p, id) || (op.End? && op.ok && op.dl.id == id && OpenIn(p, op.dl))
  }

  /** The handler is running: the delivery began, before its event had been handled, and has not ended. */
  predicate OpenIn(h: seq<Op>, dl: Delivery)
    decreases |h|
  {
    if h == [] then false else
      var p, op := h[..|h| - 1], h[|h| - 1];
      if OpenIn(p, dl) then !(op.End? && op.dl == dl)
      else op == Begin(dl) && !BegunIn(p, dl) && !HandledIn(p, dl.id)
  }

  /** The ends of the handler's runs, in the order they came. */
  function Completed(h: seq<Op>): seq<Op> {
    if h == [] then [] else
      var p, op := h[..|h| - 1], h[|h| - 1];
      Completed(p) + if op.End? && OpenIn(p, op.dl) then [op] else []
  }

  predicate Failure(op: Op) {
    op.End? && !op.ok
  }

  function SuccessIds(cs: seq<Op>): seq<EventId> {
    if cs == [] then [] else
      SuccessIds(cs[..|cs| - 1]) + if Failure(cs[|cs| - 1]) then [] else [cs[|cs| - 1].dl.id]
  }

  /** Length of the run of failures at the end. */
  function TrailingFailures(cs: seq<Op>): nat {
    if cs == [] || !Failure(cs[|cs| - 1]) then 0 else 1 + TrailingFailures(cs[..|cs| - 1])
  }

  /** One alert per failure that finds the run of failures at or over the threshold. */
  function Lags(cs: seq<Op>, threshold: int): seq<nat> {
    if cs == [] then [] else
      Lags(cs[..|cs| - 1], threshold)
      + if Failure(cs[|cs| - 1]) && TrailingFailures(cs) >= threshold then [TrailingFailures(cs)] else []
  }

  /** The consumer that attempts with these ends make. */
  function Tally(threshold: int, cs: seq<Op>): Consumer {
    Consumer(threshold, TrailingFailures(cs), SuccessIds(cs), Lags(cs, threshold))
  }

  lemma BegunSnoc(h: seq<Op>, dl: Delivery)
    requires h != []
    ensures BegunIn(h, dl) <==> BegunIn(h[..|h| - 1], dl) || h[|h| - 1] == Begin(dl)
  {
    var p := h[..|h| - 1];
    assert h[|h| - 1] == Begin(dl) ==> BegunIn(h, dl);
    if i :| 0 <= i < |p| && p[i] == Begin(dl) {
      assert h[i] == Begin(dl);
    }
    if i :| 0 <= i < |h| && h[i] == Begin(dl) && i < |p| {
      assert p[i] == Begin(dl);
    }
  }

  /** The consumer's sets are what its history says, event by event and delivery by delivery. */
  lemma {:induction false} SetsReplay(threshold: int, h: seq<Op>, dl: Delivery, id: EventId)
    ensures var s := TakeAll(threshold, h);
            (dl in s.begun <==> BegunIn(h, dl)) && (dl in s.open <==> OpenIn(h, dl)) && (id in s.seen <==> HandledIn(h, id))
  {
    if h == [] {
    } else {
      var p, op := h[..|h| - 1], h[|h| - 1];
      SetsReplay(threshold, p, dl, id);
      SetsReplay(threshold, p, op.dl, op.dl.id);
      BegunSnoc(h, dl);
    }
  }

  /**
   In any interleaving the failure counter is the run of failed attempts at the
   end, the alerts are raised exactly where that reaches the threshold, and the handled list
   is the events of the attempts that succeeded, all in the order the attempts ended.
   */
  lemma {:induction false} FailuresAreTrailing(threshold: int, h: seq<Op>)
    ensures TakeAll(threshold, h).consumer == Tally(threshold, Completed(h))
  {
    if h == [] {
    } else {
      var p, op := h[..|h| - 1], h[|h| - 1];
      FailuresAreTrailing(threshold, p);
      SetsReplay(threshold, p, op.dl, op.dl.id);
      var cs := Completed(h);
      if op.End? && OpenIn(p, op.dl) {
        assert cs[..|cs| - 1] == Completed(p);
      } else {
        assert cs == Completed(p);
      }
    }
  }

  lemma SuccessSnoc(cs: seq<Op>, op: Op)
    ensures SuccessIds(cs + [op]) == SuccessIds(cs) + if Failure(op) then [] else [op.dl.id]
  {
    assert (cs + [op])[..|cs|] == cs;
  }

  /** At least once: an event is among the handled if and only if some delivery of it did not raise. */
  lemma {:induction false} HandledIffSucceeded(h: seq<Op>, id: EventId)
    ensures id in SuccessIds(Completed(h)) <==> HandledIn(h, id)
  {
    if h == [] {
    } else {
      var p, op := h[..|h| - 1], h[|h| - 1];
      HandledIffSucceeded(p, id);
      if op.End? && OpenIn(p, op.dl) {
        SuccessSnoc(Completed(p), op);
      } else {
        assert Completed(h) == Completed(p);
      }
    }
  }

  // ----- at most once, and when not -----

  predicate SucceededIn(h: seq<Op>, dl: Delivery) {
    exists k | 0 <= k < |Completed(h)| :: Completed(h)[k] == End(dl, true)
  }

  ghost predicate BeginsAt(h: seq<Op>, dl: Delivery, j: int) {
    0 <= j < |h| && h[j] == Begin(dl) && !BegunIn(h[..j], dl)
  }

  /** y begins while the handler runs for x. */
  ghost predicate BeginsDuring(h: seq<Op>, x: Delivery, y: Delivery, j: int) {
    BeginsAt(h, y, j) && OpenIn(h[..j], x)
  }

  ghost predicate Crossed(h: seq<Op>, x: Delivery, y: Delivery) {
    exists j :: BeginsDuring(h, x, y, j) || BeginsDuring(h, y, x, j)
  }

  ghost predicate Twice(ids: seq<EventId>, id: EventId) {
    exists i, j | 0 <= i < j < |ids| :: ids[i] == id && ids[j] == id
  }

  lemma SucceededSnoc(h: seq<Op>, dl: Delivery)
    requires h != []
    ensures var p, op := h[..|h| - 1], h[|h| - 1];
            SucceededIn(h, dl) <==> SucceededIn(p, dl) || (op == End(dl, true) && OpenIn(p, dl))
  {
    var p, op := h[..|h| - 1], h[|h| - 1];
    var before, cs := Completed(p), Completed(h);
    if op.End? && OpenIn(p, op.dl) {
      assert cs == before + [op] && cs[|before|] == op;
      assert forall k | 0 <= k < |before| :: cs[k] == before[k];
    } else {
      assert cs == before;
    }
  }

  lemma CrossedPrefix(h: seq<Op>, x: Delivery, y: Delivery)
    requires h != [] && Crossed(h[..|h| - 1], x, y)
    ensures Crossed(h, x, y)
  {
    var p := h[..|h| - 1];
    var j :| BeginsDuring(p, x, y, j) || BeginsDuring(p, y, x, j);
    assert p[..j] == h[..j] && p[j] == h[j];
    assert BeginsDuring(h, x, y, j) || BeginsDuring(h, y, x, j);
  }

  lemma {:induction false} BothOpen(h: seq<Op>, x: Delivery, y: Delivery)
    requires x != y && OpenIn(h, x) && OpenIn(h, y)
    ensures Crossed(h, x, y)
  {
    var n := |h| - 1;
    if OpenIn(h[..n], x) && OpenIn(h[..n], y) {
      BothOpen(h[..n], x, y);
      CrossedPrefix(h, x, y);
    } else if OpenIn(h[..n], x) {
      assert BeginsDuring(h, x, y, n);
    } else {
      assert BeginsDuring(h, y, x, n);
    }
  }

  lemma {:induction false} SuccessHandles(h: seq<Op>, x: Delivery)
    requires SucceededIn(h, x)
    ensures HandledIn(h, x.id)
  {
    SucceededSnoc(h, x);
    if SucceededIn(h[..|h| - 1], x) {
      SuccessHandles(h[..|h| - 1], x);
    }
  }

  /** A handler still running after another delivery of the event succeeded had been running alongside it. */
  lemma {:induction false} OpenAfterSuccess(h: seq<Op>, x: Delivery, y: Delivery)
    requires x != y && x.id == y.id && SucceededIn(h, x) && OpenIn(h, y)
    ensures Crossed(h, x, y)
  {
    var p := h[..|h| - 1];
    SucceededSnoc(h, x);
    if SucceededIn(p, x) {
      SuccessHandles(p, x);
      OpenAfterSuccess(p, x, y);
    } else {
      BothOpen(p, x, y);
    }
    CrossedPrefix(h, x, y);
  }

  lemma {:induction false} SuccessNotOpen(h: seq<Op>, x: Delivery)
    requires SucceededIn(h, x)
    ensures !OpenIn(h, x) && BegunIn(h, x)
  {
    var p := h[..|h| - 1];
    SucceededSnoc(h, x);
    BegunSnoc(h, x);
    if SucceededIn(p, x) {
      SuccessNotOpen(p, x);
    } else {
      OpenWasBegun(p, x);
    }
  }

  lemma {:induction false} OpenWasBegun(h: seq<Op>, x: Delivery)
    requires OpenIn(h, x)
    ensures BegunIn(h, x)
  {
    BegunSnoc(h, x);
    if OpenIn(h[..|h| - 1], x) {
      OpenWasBegun(h[..|h| - 1], x);
    }
  }

  /** An event that was handled has a delivery that succeeded. */
  lemma {:induction false} HandledBySome(h: seq<Op>, id: EventId) returns (x: Delivery)
    requires HandledIn(h, id)
    ensures x.id == id && SucceededIn(h, x)
  {
    var p, op := h[..|h| - 1], h[|h| - 1];
    if HandledIn(p, id) {
      x := HandledBySome(p, id);
    } else {
      x := op.dl;
    }
    SucceededSnoc(h, x);
  }

  /** Two deliveries of the event cross and both succeed. */
  ghost predicate CrossedSuccesses(h: seq<Op>, id: EventId, x: Delivery, y: Delivery) {
    x != y && x.id == id && y.id == id && SucceededIn(h, x) && SucceededIn(h, y) && Crossed(h, x, y)
  }

  ghost predicate SomeCrossed(h: seq<Op>, id: EventId) {
    exists x, y :: CrossedSuccesses(h, id, x, y)
  }

  lemma {:induction false} TwiceMeansCrossed(h: seq<Op>, id: EventId) returns (x: Delivery, y: Delivery)
    requires Twice(SuccessIds(Completed(h)), id)
    ensures CrossedSuccesses(h, id, x, y)
  {
    var p, op := h[..|h| - 1], h[|h| - 1];
    var before, ids := SuccessIds(Completed(p)), SuccessIds(Completed(h));
    if op.End? && OpenIn(p, op.dl) {
      SuccessSnoc(Completed(p), op);
    } else {
      assert Completed(h) == Completed(p);
    }
    if Twice(before, id) {
      x, y := TwiceMeansCrossed(p, id);
    } else {
      var i, j :| 0 <= i < j < |ids| && ids[i] == id && ids[j] == id;
      assert j == |before| && ids == before + [op.dl.id] && before[i] == id;
      HandledIffSucceeded(p, id);
      x := HandledBySome(p, id);
      y := op.dl;
      SuccessNotOpen(p, x);
      OpenAfterSuccess(p, x, y);
    }
    CrossedPrefix(h, x, y);
    SucceededSnoc(h, x);
    SucceededSnoc(h, y);
  }

  lemma {:induction false} TwoSuccesses(h: seq<Op>, x: Delivery, y: Delivery)
    requires x != y && x.id == y.id && SucceededIn(h, x) && SucceededIn(h, y)
    ensures Twice(SuccessIds(Completed(h)), x.id)
  {
    var p, op := h[..|h| - 1], h[|h| - 1];
    SucceededSnoc(h, x);
    SucceededSnoc(h, y);
    var before, ids := SuccessIds(Completed(p)), SuccessIds(Completed(h));
    if op.End? && OpenIn(p, op.dl) {
      SuccessSnoc(Completed(p), op);
    } else {
      assert Completed(h) == Completed(p);
    }
    if SucceededIn(p, x) && SucceededIn(p, y) {
      TwoSuccesses(p, x, y);
      var i, j :| 0 <= i < j < |before| && before[i] == x.id && before[j] == x.id;
      assert ids[i] == x.id && ids[j] == x.id;
    } else {
      SuccessHandles(p, if SucceededIn(p, x) then x else y);
      HandledIffSucceeded(p, x.id);
      var i :| 0 <= i < |before| && before[i] == x.id;
      assert ids[i] == x.id && ids[|before|] == x.id;
    }
  }

  /**
   When the handler of a consumer succeeds twice for one event: if and only if a
   delivery of it begins while another is running and both succeed.
   */
  lemma SucceedsTwiceIffCrossed(h: seq<Op>, id: EventId)
    ensures Twice(SuccessIds(Completed(h)), id) <==> SomeCrossed(h, id)
  {
    if Twice(SuccessIds(Completed(h)), id) {
      var x, y := TwiceMeansCrossed(h, id);
    }
    if x, y :| CrossedSuccesses(h, id, x, y) {
      TwoSuccesses(h, x, y);
    }
  }

  /** No delivery begins while the handler runs for another delivery of the same event. */
  ghost predicate OneAtATime(h: seq<Op>) {
    forall x: Delivery, y: Delivery, j :: BeginsDuring(h, x, y, j) ==> x.id != y.id
  }

  /** Deliveries of an event made one at a time, its handler succeeds at most once. */
  lemma HandledOnce(h: seq<Op>)
    requires OneAtATime(h)
    ensures NoDup(SuccessIds(Completed(h)))
  {
    var ids := SuccessIds(Completed(h));
    forall i, j | 0 <= i < j < |ids| ensures ids[i] != ids[j] {
      if ids[i] == ids[j] {
        assert Twice(ids, ids[i]);
        var x, y := TwiceMeansCrossed(h, ids[i]);
      }
    }
  }

  lemma TakeSnoc(threshold: int, h: seq<Op>, op: Op)
    ensures TakeAll(threshold, h + [op]) == Take(TakeAll(threshold, h), op)
  {
    assert (h + [op])[..|h|] == h;
  }

  /** Redelivering an event while its handler is awaited handles it twice. */
  lemma OverlapHandlesTwice(x: Delivery, y: Delivery, threshold: int)
    requires x != y && x.id == y.id
    ensures TakeAll(threshold, [] + [Begin(x)] + [Begin(y)] + [End(x, true)] + [End(y, true)]).consumer.handled == [x.id, x.id]
  {
    var h := [] + [Begin(x)] + [Begin(y)];
    TakeSnoc(threshold, [], Begin(x));
    TakeSnoc(threshold, [] + [Begin(x)], Begin(y));
    TakeSnoc(threshold, h, End(x, true));
    TakeSnoc(threshold, h + [End(x, true)], End(y, true));
    assert x in TakeAll(threshold, h).open && y in TakeAll(threshold, h).open && TakeAll(threshold, h).consumer.handled == [];
  }

  /** A delivery that began and is not running found its event handled, or ended. */
  lemma {:induction false} DeliveryIsSettled(h: seq<Op>, dl: Delivery)
    requires BegunIn(h, dl) && !OpenIn(h, dl)
    ensures HandledIn(h, dl.id) || End(dl, false) in Completed(h)
  {
    var p, op := h[..|h| - 1], h[|h| - 1];
    BegunSnoc(h, dl);
    if BegunIn(p, dl) && !OpenIn(p, dl) {
      DeliveryIsSettled(p, dl);
    } else if OpenIn(p, dl) {
      assert op in Completed(h);
    }
  }

  lemma NoDupIffNoneTwice(ids: seq<EventId>)
    ensures NoDup(ids) <==> forall id: EventId :: !Twice(ids, id)
  {
    if !NoDup(ids) {
      var i, j :| 0 <= i < j < |ids| && ids[i] == ids[j];
      assert Twice(ids, ids[i]);
    }
  }

  /** Handled and marked are the same events, in every interleaving. */
  lemma HandledIsSeen(thresholds: map<string, int>, h: seq<Op>, name: string, id: EventId)
    requires name in thresholds
    ensures name in Run(thresholds, h).consumers
    ensures id in Run(thresholds, h).consumers[name].handled <==> (name, id) in Run(thresholds, h).seen
    ensures id in Run(thresholds, h).consumers[name].handled <==> HandledIn(Own(h, name), id)
  {
    var own := Own(h, name);
    ConsumerReplay(thresholds, h, name);
    FailuresAreTrailing(thresholds[name], own);
    HandledIffSucceeded(own, id);
    SetsReplay(thresholds[name], own, Delivery(name, id, 0), id);
    InSeenBy(Run(thresholds, h).seen, name, id);
  }

  /**
   The promise of the bus for every registered consumer of every interleaving:
   counter, alerts and handled list are those of its own attempts, and no event is handled
   twice if and only if no two deliveries of one event cross and both succeed.
   */
  lemma DeliveryContract(thresholds: map<string, int>, h: seq<Op>, name: string)
    requires name in thresholds
    ensures name in Run(thresholds, h).consumers
    ensures Run(thresholds, h).consumers[name] == Tally(thresholds[name], Completed(Own(h, name)))
    ensures NoDup(Run(thresholds, h).consumers[name].handled)
       <==> forall id: EventId :: !SomeCrossed(Own(h, name), id)
  {
    ConsumerReplay(thresholds, h, name);
    FailuresAreTrailing(thresholds[name], Own(h, name));
    NoDupIffNoneTwice(SuccessIds(Completed(Own(h, name))));
    forall id: EventId
      ensures Twice(SuccessIds(Completed(Own(h, name))), id) <==> SomeCrossed(Own(h, name), id)
    {
      SucceedsTwiceIffCrossed(Own(h, name), id);
    }
  }

  // ----- the bus object: one method per part of `publish`, `redeliver` and `deliver` that runs without suspending -----

  /** A publish or redelivery under way: `next` counts the targets it is done with. */
  datatype Fan = Fan(event: Event, targets: seq<string>, next: nat, running: bool)

  function DeliveryOf(f: nat, fan: Fan, k: nat): Delivery
    requires k < |fan.targets|
  {
    Delivery(fan.targets[k], fan.event.id, f)
  }

  /** Targets are served in order, one after the other, each exactly once. */
  ghost predicate FanOk(f: nat, fan: Fan, begun: set<Delivery>, open: set<Delivery>) {
    && NoDup(fan.targets) && fan.next <= |fan.targets| && (fan.running ==> fan.next < |fan.targets|)
    && forall k | 0 <= k < |fan.targets| ::
         && (Delivery(fan.targets[k], fan.event.id, f) in begun <==> k < fan.next || (k == fan.next && fan.running))
         && (Delivery(fan.targets[k], fan.event.id, f) in open <==> k == fan.next && fan.running)
  }

  /** The target has had its turn: it found the event handled, or its handler has come back. */
  predicate Through(f: nat, fan: Fan, k: nat, begun: set<Delivery>, open: set<Delivery>)
    requires k < |fan.targets|
  {
    DeliveryOf(f, fan, k) in begun && DeliveryOf(f, fan, k) !in open
  }

  /**
   Who waits for whom: a target of a fan-out has begun, or may begin now, if and only if
   every target before it is through. So a slow handler holds up all that come after it.
   */
  lemma TurnIffEarlierThrough(f: nat, fan: Fan, begun: set<Delivery>, open: set<Delivery>, k: nat)
    requires FanOk(f, fan, begun, open) && k < |fan.targets|
    ensures DeliveryOf(f, fan, k) in begun || (k == fan.next && !fan.running)
       <==> forall j | 0 <= j < k :: Through(f, fan, j, begun, open)
  {
    if k > fan.next {
      assert !Through(f, fan, fan.next, begun, open);
    }
  }

  ghost predicate FansOk(order: seq<string>, fans: map<nat, Fan>, begun: set<Delivery>, open: set<Delivery>) {
    && (forall dl | dl in begun :: dl.fan in fans)
    && open <= begun
    && (forall f | f in fans :: FanOk(f, fans[f], begun, open) && Elems(fans[f].targets) <= Elems(order))
  }

  lemma FanBegins(f: nat, fan: Fan, begun: set<Delivery>, open: set<Delivery>)
    requires FanOk(f, fan, begun, open) && !fan.running && fan.next < |fan.targets|
    ensures var dl := DeliveryOf(f, fan, fan.next);
            && FanOk(f, fan.(running := true), begun + {dl}, open + {dl})
            && FanOk(f, fan.(next := fan.next + 1), begun + {dl}, open)
  {
  }

  lemma FanEnds(f: nat, fan: Fan, begun: set<Delivery>, open: set<Delivery>)
    requires FanOk(f, fan, begun, open) && fan.running
    ensures FanOk(f, fan.(next := fan.next + 1, running := false), begun, open - {DeliveryOf(f, fan, fan.next)})
  {
  }

  /** A delivery of one fan-out says nothing of another. */
  lemma OtherFan(f: nat, fan: Fan, begun: set<Delivery>, open: set<Delivery>, dl: Delivery)
    requires FanOk(f, fan, begun, open) && dl.fan != f
    ensures FanOk(f, fan, begun + {dl}, open + {dl}) && FanOk(f, fan, begun + {dl}, open) && FanOk(f, fan, begun, open - {dl})
  {
  }

  /** What Begin and End of the next delivery leave of all fan-outs. */
  lemma FansBegin(order: seq<string>, fans: map<nat, Fan>, begun: set<Delivery>, open: set<Delivery>, f: nat)
    requires FansOk(order, fans, begun, open) && f in fans && !fans[f].running && fans[f].next < |fans[f].targets|
    ensures var dl := DeliveryOf(f, fans[f], fans[f].next);
            && FansOk(order, fans[f := fans[f].(running := true)], begun + {dl}, open + {dl})
            && FansOk(order, fans[f := fans[f].(next := fans[f].next + 1)], begun + {dl}, open)
  {
    var dl := DeliveryOf(f, fans[f], fans[f].next);
    FanBegins(f, fans[f], begun, open);
    forall g | g in fans && g != f
      ensures FanOk(g, fans[g], begun + {dl}, open + {dl}) && FanOk(g, fans[g], begun + {dl}, open)
    {
      OtherFan(g, fans[g], begun, open, dl);
    }
  }

  lemma FansEnd(order: seq<string>, fans: map<nat, Fan>, begun: set<Delivery>, open: set<Delivery>, f: nat)
    requires FansOk(order, fans, begun, open) && f in fans && fans[f].running
    ensures FansOk(order, fans[f := fans[f].(next := fans[f].next + 1, running := false)], begun,
                   open - {DeliveryOf(f, fans[f], fans[f].next)})
  {
    var dl := DeliveryOf(f, fans[f], fans[f].next);
    FanEnds(f, fans[f], begun, open);
    forall g | g in fans && g != f ensures FanOk(g, fans[g], begun, open - {dl}) {
      OtherFan(g, fans[g], begun, open, dl);
    }
  }

  class InMemoryEventBus {
    const order: seq<string>
    var consumers: map<string, Consumer>
    var seen: set<(string, EventId)>
    var published: seq<Event>
    var fans: map<nat, Fan>
    ghost const thresholds: map<string, int>
    ghost var begun: set<Delivery>
    ghost var open: set<Delivery>
    ghost var history: seq<Op>

    ghost function Snapshot(): Bus
      reads this
    {
      Bus(consumers, seen, begun, open)
    }

    ghost predicate Valid()
      reads this
    {
      && NoDup(order) && Elems(order) == thresholds.Keys == consumers.Keys
      && Snapshot() == Run(thresholds, history)
      && FansOk(order, fans, begun, open)
    }

    constructor (names: seq<string>, thresholds: map<string, int>)
      requires NoDup(names) && thresholds.Keys == Elems(names)
      ensures Valid() && history == [] && fans == map[] && published == [] && order == names && this.thresholds == thresholds
    {
      consumers := map n | n in thresholds :: Consumer(thresholds[n], 0, [], []);
      order, seen, published, fans := names, {}, [], map[];
      this.thresholds, begun, open, history := thresholds, {}, {}, [];
    }

    ghost method Log(op: Op)
      requires NoDup(order) && Elems(order) == thresholds.Keys == consumers.Keys && FansOk(order, fans, begun, open)
      requires Snapshot() == Step(Run(thresholds, history), op)
      modifies this`history
      ensures Valid() && history == old(history) + [op]
    {
      RunSnoc(thresholds, history, op);
      history := history + [op];
    }

    /** Opens a fan-out to every consumer, in registration order. */
    method Publish(f: nat, e: Event)
      requires Valid() && f !in fans
      modifies this
      ensures Valid() && history == old(history)
      ensures published == old(published) + [e] && fans == old(fans)[f := Fan(e, order, 0, false)]
    {
      published := published + [e];
      fans := fans[f := Fan(e, order, 0, false)];
    }

    /** To one consumer, or to all if none or an empty name is given; false stands for the KeyError of an unknown name. */
    method Redeliver(f: nat, e: Event, target: Option<string>) returns (known: bool)
      requires Valid() && f !in fans
      modifies this
      ensures Valid() && history == old(history) && published == old(published)
      ensures !known <==> target.Some? && target.value != "" && target.value !in order
      ensures fans == if !known then old(fans) else
                        old(fans)[f := Fan(e, if target.Some? && target.value != "" then [target.value] else order, 0, false)]
    {
      var single := target.Some? && target.value != "";
      known := !single || target.value in order;
      if known {
        fans := fans[f := Fan(e, if single then [target.value] else order, 0, false)];
      }
    }

    /** The dedup check of the next delivery; true if its handler now runs. */
    method BeginDelivery(f: nat) returns (runs: bool)
      requires Valid() && f in fans && !fans[f].running && fans[f].next < |fans[f].targets|
      modifies this
      ensures Valid() && history == old(history) + [Begin(DeliveryOf(f, old(fans)[f], old(fans)[f].next))]
      ensures published == old(published)
      ensures fans == old(fans)[f := if runs then old(fans)[f].(running := true) else old(fans)[f].(next := old(fans)[f].next + 1)]
      ensures runs <==> (old(fans)[f].targets[old(fans)[f].next], old(fans)[f].event.id) !in old(seen)
    {
      var fan := fans[f];
      var name := fan.targets[fan.next];
      ghost var dl := DeliveryOf(f, fan, fan.next);
      assert name in Elems(fan.targets);
      FansBegin(order, fans, begun, open, f);
      runs := (name, fan.event.id) !in seen;
      begun := begun + {dl};
      if runs {
        open := open + {dl};
        fans := fans[f := fan.(running := true)];
      } else {
        fans := fans[f := fan.(next := fan.next + 1)];
      }
      Log(Begin(dl));
    }

    method Settle(name: string, id: EventId, raised: bool)
      requires name in consumers
      modifies this`consumers, this`seen
      ensures consumers == old(consumers)[name := if raised then Fail(old(consumers)[name]) else Succeed(old(consumers)[name], id)]
      ensures seen == if raised then old(seen) else old(seen) + {(name, id)}
    {
      var c := consumers[name];
      if raised {
        var n := c.failures + 1;
        c := c.(failures := n);
        if n >= c.threshold {
          c := c.(alerts := c.alerts + [n]);
        }
      } else {
        seen := seen + {(name, id)};
        c := c.(handled := c.handled + [id], failures := 0);
      }
      consumers := consumers[name := c];
    }

    /** The handler of the delivery under way has returned, or raised. */
    method EndDelivery(f: nat, raised: bool)
      requires Valid() && f in fans && fans[f].running
      modifies this
      ensures Valid() && history == old(history) + [End(DeliveryOf(f, old(fans)[f], old(fans)[f].next), !raised)]
      ensures published == old(published)
      ensures fans == old(fans)[f := old(fans)[f].(next := old(fans)[f].next + 1, running := false)]
    {
      var fan := fans[f];
      var name := fan.targets[fan.next];
      ghost var dl := DeliveryOf(f, fan, fan.next);
      assert name in Elems(fan.targets);
      FansEnd(order, fans, begun, open, f);
      Settle(name, fan.event.id, raised);
      fans := fans[f := fan.(next := fan.next + 1, running := false)];
      open := open - {dl};
      Log(End(dl, !raised));
    }

    /** A fan-out that is through has left each target with the event handled, or with a failed attempt of this very delivery. */
    lemma FanoutIsComplete(f: nat, k: nat)
      requires Valid() && f in fans && fans[f].next == |fans[f].targets| && k < |fans[f].targets|
      ensures var dl := DeliveryOf(f, fans[f], k);
              var own := Own(history, dl.name);
              HandledIn(own, dl.id) || End(dl, false) in Completed(own)
    {
      var dl := DeliveryOf(f, fans[f], k);
      assert dl.name in Elems(fans[f].targets);
      ConsumerReplay(thresholds, history, dl.name);
      SetsReplay(thresholds[dl.name], Own(history, dl.name), dl, dl.id);
      DeliveryIsSettled(Own(history, dl.name), dl);
    }
  }

  /** Two consumers, one publish: until the first one's handler comes back the second one is not handed the event. */
  method SlowConsumerHoldsUpNext(slow: string, next: string, e: Event) returns (bus: InMemoryEventBus)
    requires slow != next
    ensures bus.Valid() && bus.order == [slow, next] && bus.published == [e]
    ensures bus.history == [Begin(Delivery(slow, e.id, 0))]
    ensures bus.fans == map[0 := Fan(e, [slow, next], 0, true)]
    ensures Delivery(slow, e.id, 0) in bus.open && Delivery(next, e.id, 0) !in bus.begun
  {
    bus := new InMemoryEventBus([slow, next], map[slow := 100, next := 100]);
    bus.Publish(0, e);
    var runs := bus.BeginDelivery(0);
    assert bus.fans[0].targets[0] == slow && bus.fans[0].targets[1] == next;
  }
}
