/**
 Charging transactions behind StartTransaction and StopTransaction. A charge
 point repeats a stop it saw no answer to, so a run is any sequence of starts
 and stops, stops of unknown or finished transactions included. The authorizer is
 asked before a start changes anything, and the repository does not suspend, so
 starts and stops happen whole, in the order in which they reach it.
 */
module Transactions {
  import opened Seqs
  import MeterValues

  type TxnId = nat

  datatype Closing = Closing(meterStop: int, stopTimestamp: int, reason: Option<string>)

  datatype Record = Record(
    tenant: nat, charger: string, meterStart: int, startTimestamp: int, closing: Option<Closing>)

  datatype Active = Active(id: TxnId, charger: string, connector: int, idTag: string, startTimestamp: int)

  datatype StopEvent = StopEvent(tenant: nat, charger: string, id: TxnId)

  datatype State = State(active: map<string, Active>, records: map<TxnId, Record>, events: seq<StopEvent>)

  /** `id` is the identifier the repository draws; `authorized` the authorizer's verdict. */
  datatype Op =
    | Start(id: TxnId, charger: string, tenant: nat, connector: int, idTag: string, meterStart: int, at: int,
            authorized: bool)
    | Stop(id: TxnId, closing: Closing)

  const EMPTY := State(map[], map[], [])

  /** A start takes place if the tag is accepted; drawn identifiers are never drawn twice. */
  predicate Opens(s: State, op: Op) {
    op.Start? && op.authorized && op.id !in s.records
  }

  function Step(s: State, op: Op): State {
    match op
    case Start(id, charger, tenant, connector, idTag, meterStart, at, _) =>
      if !Opens(s, op) then s else
        s.(active := s.active[charger := Active(id, charger, connector, idTag, at)],
           records := s.records[id := Record(tenant, charger, meterStart, at, None)])
    case Stop(id, closing) =>
      if id !in s.records || s.records[id].closing.Some? then s else
        var r := s.records[id];
        State(if r.charger in s.active && s.active[r.charger].id == id then s.active - {r.charger} else s.active,
              s.records[id := r.(closing := Some(closing))],
              s.events + [StopEvent(r.tenant, r.charger, id)])
  }

  function Run(h: seq<Op>): State {
    if h == [] then EMPTY else Step(Run(h[..|h| - 1]), h[|h| - 1])
  }

  lemma RunSnoc(h: seq<Op>, op: Op)
    ensures Run(h + [op]) == Step(Run(h), op)
  {
    assert (h + [op])[..|h|] == h;
  }

  // ----- the reference, read off the history -----

  /** The accepted start that drew `id`. */
  function StartOf(h: seq<Op>, id: TxnId): Option<Op> {
    if h == [] then None else
      var p, op := h[..|h| - 1], h[|h| - 1];
      if StartOf(p, id).Some? then StartOf(p, id)
      else if op.Start? && op.authorized && op.id == id then Some(op)
      else None
  }

  /** What the first stop naming `id` since it started said. */
  function FirstStop(h: seq<Op>, id: TxnId): Option<Closing> {
    if h == [] then None else
      var p, op := h[..|h| - 1], h[|h| - 1];
      if FirstStop(p, id).Some? then FirstStop(p, id)
      else if op.Stop? && op.id == id && StartOf(p, id).Some? then Some(op.closing)
      else None
  }

  /** The transaction most recently started on a charger. */
  function LatestOn(h: seq<Op>, charger: string): Option<TxnId> {
    if h == [] then None else
      var p, op := h[..|h| - 1], h[|h| - 1];
      if op.Start? && op.authorized && op.charger == charger && StartOf(p, op.id).None? then Some(op.id)
      else LatestOn(p, charger)
  }

  ghost predicate RecordOk(h: seq<Op>, id: TxnId) {
    var s := Run(h);
    match StartOf(h, id)
    case None => id !in s.records && FirstStop(h, id).None?
    case Some(op) =>
      && op.Start? && op.id == id && id in s.records
      && s.records[id] == Record(op.tenant, op.charger, op.meterStart, op.at, FirstStop(h, id))
  }

  /**
   A record is its start plus its first stop: later stops overwrite nothing and
   stops that come before the transaction exists do nothing.
   */
  lemma {:induction false} RecordIsFirstStop(h: seq<Op>, id: TxnId)
    ensures RecordOk(h, id)
  {
    if h == [] {
    } else {
      RecordIsFirstStop(h[..|h| - 1], id);
    }
  }

  /** Stop events of one transaction. */
  function EventsOf(events: seq<StopEvent>, id: TxnId): nat {
    if events == [] then 0
    else EventsOf(events[..|events| - 1], id) + if events[|events| - 1].id == id then 1 else 0
  }

  /** An operation publishes an event exactly if it closes an open transaction. */
  lemma EventsStep(s: State, op: Op, id: TxnId)
    ensures EventsOf(Step(s, op).events, id)
         == EventsOf(s.events, id) + if op.Stop? && op.id == id && id in s.records && s.records[id].closing.None? then 1 else 0
  {
    var events := Step(s, op).events;
    if |events| > |s.events| {
      assert events[..|events| - 1] == s.events;
    } else {
      assert events == s.events;
    }
  }

  /** Every event names the tenant and the charger of its transaction. */
  ghost predicate EventsName(s: State) {
    forall k | 0 <= k < |s.events| ::
      && s.events[k].id in s.records
      && s.events[k] == StopEvent(s.records[s.events[k].id].tenant, s.records[s.events[k].id].charger, s.events[k].id)
  }

  lemma EventsNameStep(s: State, op: Op)
    requires EventsName(s)
    ensures EventsName(Step(s, op))
  {
  }

  lemma {:induction false} EventsNameTheirRecord(h: seq<Op>)
    ensures EventsName(Run(h))
  {
    if h == [] {
    } else {
      EventsNameTheirRecord(h[..|h| - 1]);
      EventsNameStep(Run(h[..|h| - 1]), h[|h| - 1]);
    }
  }

  /** A stop is the first of its transaction exactly if it finds the record open. */
  lemma FirstStopStep(h: seq<Op>, id: TxnId)
    requires h != []
    ensures var p, op := h[..|h| - 1], h[|h| - 1];
            var s := Run(p);
            FirstStop(h, id).Some? <==>
              FirstStop(p, id).Some? || (op.Stop? && op.id == id && id in s.records && s.records[id].closing.None?)
  {
    RecordIsFirstStop(h[..|h| - 1], id);
  }

  lemma ClosedOnce(h: seq<Op>, id: TxnId)
    ensures FirstStop(h, id).Some? ==> id in Run(h).records && Run(h).records[id].closing.Some?
  {
    RecordIsFirstStop(h, id);
  }

  lemma {:induction false} StopsCounted(h: seq<Op>, id: TxnId)
    ensures EventsOf(Run(h).events, id) == if FirstStop(h, id).Some? then 1 else 0
  {
    if h == [] {
    } else {
      StopsCounted(h[..|h| - 1], id);
      FirstStopStep(h, id);
      ClosedOnce(h[..|h| - 1], id);
      EventsStep(Run(h[..|h| - 1]), h[|h| - 1], id);
    }
  }

  /** Stop events: one for every completed transaction, none for any other, naming its tenant and charger. */
  lemma OneStopEventEach(h: seq<Op>, id: TxnId)
    ensures EventsOf(Run(h).events, id) == if FirstStop(h, id).Some? then 1 else 0
    ensures EventsName(Run(h))
  {
    StopsCounted(h, id);
    EventsNameTheirRecord(h);
  }

  /** The active entry shows the transaction as it was started. */
  ghost predicate ActiveAs(a: Active, start: Op) {
    start.Start? && a.id == start.id && a.charger == start.charger && a.connector == start.connector
    && a.idTag == start.idTag && a.startTimestamp == start.at
  }

  /**
   A charger's active transaction is the one most recently started on it, unless
   that one has been stopped; stopping an older one does not touch it.
   */
  lemma {:induction false} ActiveIsLatest(h: seq<Op>, charger: string)
    ensures var s := Run(h);
            match LatestOn(h, charger)
            case None => charger !in s.active
            case Some(id) =>
              && id in s.records && s.records[id].charger == charger
              && (charger in s.active <==> FirstStop(h, id).None?)
              && (charger in s.active ==> StartOf(h, id).Some? && ActiveAs(s.active[charger], StartOf(h, id).value))
  {
    if h == [] {
    } else {
      var p, op := h[..|h| - 1], h[|h| - 1];
      ActiveIsLatest(p, charger);
      RecordIsFirstStop(p, op.id);
      RecordIsFirstStop(h, op.id);
      if LatestOn(p, charger).Some? {
        RecordIsFirstStop(p, LatestOn(p, charger).value);
        RecordIsFirstStop(h, LatestOn(p, charger).value);
      }
    }
  }

  // ----- the handlers over the repository and the meter buffer -----

  /** FlushFailed stands for the error of the sink, UnknownTransaction for that of the repository. */
  datatype StopResponse = Stopped | UnknownTransaction | FlushFailed

  class OcppMessageHandlers {
    var active: map<string, Active>
    var records: map<TxnId, Record>
    var events: seq<StopEvent>
    const meter: MeterValues.MeterValueBuffer
    const latest: MeterValues.InMemoryLatestMeterReadingStore
    ghost var history: seq<Op>

    ghost predicate Valid()
      reads this, meter, latest
    {
      meter.Valid() && latest.Valid() && State(active, records, events) == Run(history)
    }

    constructor (maxBatchSize: int, flushInterval: real)
      ensures Valid() && history == [] && fresh(meter) && fresh(latest) && meter.history == [] && latest.history == []
    {
      meter := new MeterValues.MeterValueBuffer(maxBatchSize, flushInterval);
      latest := new MeterValues.InMemoryLatestMeterReadingStore();
      active, records, events, history := map[], map[], [], [];
    }

    ghost method Log(op: Op)
      requires meter.Valid() && latest.Valid() && State(active, records, events) == Step(Run(history), op)
      modifies this`history
      ensures Valid() && history == old(history) + [op]
    {
      RunSnoc(history, op);
      history := history + [op];
    }

    /** None answers a tag that is not accepted; the identifier is fresh. */
    method HandleStart(id: TxnId, charger: string, tenant: nat, connector: int, idTag: string, meterStart: int, at: int,
                       authorized: bool)
      returns (r: Option<TxnId>)
      requires Valid() && id !in records
      modifies this
      ensures Valid()
      ensures history == old(history) + [Start(id, charger, tenant, connector, idTag, meterStart, at, authorized)]
      ensures r == if authorized then Some(id) else None
    {
      r := None;
      if authorized {
        active := active[charger := Active(id, charger, connector, idTag, at)];
        records := records[id := Record(tenant, charger, meterStart, at, None)];
        r := Some(id);
      }
      Log(Start(id, charger, tenant, connector, idTag, meterStart, at, authorized));
    }

    /** The repository's stop and the event it leads to. */
    method CloseTransaction(id: TxnId, closing: Closing) returns (r: StopResponse)
      requires Valid()
      modifies this
      ensures Valid() && history == old(history) + [Stop(id, closing)]
      ensures r == if id in old(records) then Stopped else UnknownTransaction
    {
      r := if id in records then Stopped else UnknownTransaction;
      if id in records && records[id].closing.None? {
        var record := records[id];
        records := records[id := record.(closing := Some(closing))];
        if record.charger in active && active[record.charger].id == id {
          active := active - {record.charger};
        }
        events := events + [StopEvent(record.tenant, record.charger, id)];
      }
      Log(Stop(id, closing));
    }

    /**
     A stop, no other call running while its flush is awaited. If the flush fails the
     transaction stays open. Otherwise it closes with everything handed in so far
     written if and only if no earlier batch was still in flight or lost.
     */
    method HandleStop(id: TxnId, closing: Closing, raises: bool) returns (r: StopResponse)
      requires Valid()
      modifies this, meter
      ensures Valid() && MeterValues.Added(meter.history) == old(MeterValues.Added(meter.history)) && meter.buffer == []
      ensures r.FlushFailed? ==> raises && history == old(history) && records == old(records) && events == old(events)
      ensures !r.FlushFailed? ==> history == old(history) + [Stop(id, closing)] && (r.UnknownTransaction? <==> id !in old(records))
      ensures !r.FlushFailed? ==>
                (multiset(MeterValues.Flatten(meter.sink)) == multiset(MeterValues.Added(meter.history)) <==>
                   forall k | 0 <= k < |old(meter.writes)| :: old(meter.writes)[k].progress == MeterValues.Written)
    {
      ghost var before := meter.writes;
      var flushed := meter.FlushAndWait(raises);
      if !flushed {
        return FlushFailed;
      }
      MeterValues.FlushCoversEarlier(meter.cfg, meter.history, before);
      r := CloseTransaction(id, closing);
    }

    /** One reading: a row of the buffer and, unless a write it causes fails, an update of the latest readings. */
    method TakeReading(row: MeterValues.Reading, openedNow: real, checked: real, raises: bool) returns (ok: bool)
      requires meter.Valid() && latest.Valid()
      modifies meter, latest
      ensures meter.Valid() && latest.Valid() && (!raises ==> ok)
      ensures MeterValues.Added(meter.history) == old(MeterValues.Added(meter.history)) + [row]
      ensures latest.history == if ok then old(latest.history) + [row] else old(latest.history)
    {
      ok := meter.AddAndWait(row, openedNow, checked, raises);
      if ok {
        latest.Update(row);
      }
    }

    /**
     One frame of readings: each becomes one row, in order, and updates the latest
     readings, until a write fails; the error then leaves the rest of the frame out.
     */
    method HandleMeterValues(rows: seq<MeterValues.Reading>, clock: seq<(real, real)>, raises: seq<bool>)
      returns (taken: nat, updated: nat)
      requires Valid() && |clock| == |rows| == |raises|
      modifies meter, latest
      ensures Valid() && updated <= taken <= |rows|
      ensures updated == taken == |rows| || (updated + 1 == taken && raises[updated])
      ensures MeterValues.Added(meter.history) == old(MeterValues.Added(meter.history)) + rows[..taken]
      ensures latest.history == old(latest.history) + rows[..updated]
    {
      taken, updated := 0, 0;
      ghost var added, kept := MeterValues.Added(meter.history), latest.history;
      while updated == taken && taken < |rows|
        invariant taken <= |rows| && (updated == taken || (updated + 1 == taken && raises[updated]))
        invariant meter.Valid() && latest.Valid()
        invariant MeterValues.Added(meter.history) == added + rows[..taken]
        invariant latest.history == kept + rows[..updated]
      {
        OneMore(added, rows, taken);
        OneMore(kept, rows, taken);
        var ok := TakeReading(rows[taken], clock[taken].0, clock[taken].1, raises[taken]);
        taken := taken + 1;
        if ok {
          updated := updated + 1;
        }
      }
    }
  }
}
