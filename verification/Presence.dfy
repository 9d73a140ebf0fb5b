/**
 Charger presence: handshakes and frames bring a charger online, clean closes
 and heartbeat sweeps take it offline, and each loss is announced by one
 disconnect event.
 */
module Presence {
  import opened Seqs

  datatype Entry = Entry(
    tenant: nat, online: bool, node: string, protocol: string, connectedAt: real, lastSeen: real)

  datatype Disconnected = Disconnected(tenant: nat, charger: string)

  datatype State = State(entries: map<string, Entry>, events: seq<Disconnected>)

  datatype Op =
    | Handshake(charger: string, tenant: nat, verified: bool, subprotocol: Option<string>, now: real)
    | Frame(charger: string, now: real)
    | Close(charger: string)
    | Sweep(chargers: seq<string>, interval: real, now: real)

  const EMPTY := State(map[], [])

  predicate Supported(subprotocol: Option<string>) {
    subprotocol == Some("ocpp1.6") || subprotocol == Some("ocpp2.0.1")
  }

  predicate Online(s: State, c: string) {
    c in s.entries && s.entries[c].online
  }

  /** Online, and silent for more than twice the heartbeat interval. */
  predicate Expired(s: State, c: string, interval: real, now: real) {
    Online(s, c) && now - s.entries[c].lastSeen > interval * 2.0
  }

  function TakeDown(s: State, c: string): State
    requires c in s.entries
  {
    State(s.entries[c := s.entries[c].(online := false)], s.events + [Disconnected(s.entries[c].tenant, c)])
  }

  function SweepAll(s: State, cs: seq<string>, interval: real, now: real): State {
    if cs == [] then s else
      var s1 := SweepAll(s, cs[..|cs| - 1], interval, now);
      if Expired(s1, cs[|cs| - 1], interval, now) then TakeDown(s1, cs[|cs| - 1]) else s1
  }

  function Step(node: string, s: State, op: Op): State {
    match op
    case Handshake(c, tenant, verified, subprotocol, now) =>
      if !Supported(subprotocol) || !verified then s
      else s.(entries := s.entries[c := Entry(tenant, true, node, subprotocol.value, now, now)])
    case Frame(c, now) =>
      if c !in s.entries then s
      else s.(entries := s.entries[c := s.entries[c].(online := true, lastSeen := now)])
    case Close(c) => if Online(s, c) then TakeDown(s, c) else s
    case Sweep(cs, interval, now) => SweepAll(s, cs, interval, now)
  }

  function Run(node: string, h: seq<Op>): State {
    if h == [] then EMPTY else Step(node, Run(node, h[..|h| - 1]), h[|h| - 1])
  }

  // ----- one sweep -----

  /** The expired chargers of a list, each where it first occurs. */
  function ExpiredOf(s: State, cs: seq<string>, interval: real, now: real): seq<string> {
    if cs == [] then [] else
      var p, c := cs[..|cs| - 1], cs[|cs| - 1];
      ExpiredOf(s, p, interval, now) + (if Expired(s, c, interval, now) && c !in p then [c] else [])
  }

  function Announce(s: State, cs: seq<string>): seq<Disconnected>
    requires forall c | c in cs :: c in s.entries
  {
    seq(|cs|, i requires 0 <= i < |cs| => Disconnected(s.entries[cs[i]].tenant, cs[i]))
  }

  lemma AnnounceSnoc(s: State, cs: seq<string>, c: string)
    requires c in s.entries && forall d | d in cs :: d in s.entries
    ensures Announce(s, cs + [c]) == Announce(s, cs) + [Disconnected(s.entries[c].tenant, c)]
  {
  }

  lemma {:induction false} ExpiredOfExact(s: State, cs: seq<string>, interval: real, now: real)
    ensures NoDup(ExpiredOf(s, cs, interval, now))
    ensures forall c :: c in ExpiredOf(s, cs, interval, now) <==> c in cs && Expired(s, c, interval, now)
  {
    if cs == [] {
    } else {
      var p, c := cs[..|cs| - 1], cs[|cs| - 1];
      ExpiredOfExact(s, p, interval, now);
      assert cs == p + [c];
    }
  }

  /** A sweep takes down the expired chargers of its list and leaves every other entry as it was. */
  lemma {:induction false} SweepExact(s: State, cs: seq<string>, interval: real, now: real)
    ensures var s' := SweepAll(s, cs, interval, now);
            && s'.entries.Keys == s.entries.Keys
            && forall c | c in s.entries ::
                 s'.entries[c] == if c in cs && Expired(s, c, interval, now) then s.entries[c].(online := false) else s.entries[c]
  {
    if cs == [] {
    } else {
      SweepExact(s, cs[..|cs| - 1], interval, now);
      assert cs == cs[..|cs| - 1] + [cs[|cs| - 1]];
    }
  }

  /** ... and announces each charger it took down once, under the tenant of its entry. */
  lemma {:induction false} SweepAnnounces(s: State, cs: seq<string>, interval: real, now: real)
    ensures forall c | c in ExpiredOf(s, cs, interval, now) :: c in s.entries
    ensures SweepAll(s, cs, interval, now).events == s.events + Announce(s, ExpiredOf(s, cs, interval, now))
  {
    ExpiredOfExact(s, cs, interval, now);
    if cs == [] {
    } else {
      var p, c := cs[..|cs| - 1], cs[|cs| - 1];
      SweepExact(s, p, interval, now);
      SweepAnnounces(s, p, interval, now);
      var e := ExpiredOf(s, p, interval, now);
      if c !in p && Expired(s, c, interval, now) {
        AnnounceSnoc(s, e, c);
      } else {
        assert ExpiredOf(s, cs, interval, now) == e;
      }
    }
  }

  /** No listed charger is left online past twice the interval. */
  lemma SweepLeavesNoneExpired(s: State, cs: seq<string>, interval: real, now: real, c: string)
    requires c in cs
    ensures !Expired(SweepAll(s, cs, interval, now), c, interval, now)
  {
    SweepExact(s, cs, interval, now);
  }

  /** A sweep is its parts one after the other: interrupted while it announces a loss, it goes on as a sweep of the rest. */
  lemma {:induction false} SweepSplits(s: State, a: seq<string>, b: seq<string>, interval: real, now: real)
    ensures SweepAll(s, a + b, interval, now) == SweepAll(SweepAll(s, a, interval, now), b, interval, now)
  {
    if b == [] {
      assert a + b == a;
    } else {
      SweepSplits(s, a, b[..|b| - 1], interval, now);
      assert (a + b)[..|a + b| - 1] == a + b[..|b| - 1];
    }
  }

  /** Whatever brings a charger online says so at or after that time. */
  predicate NotBefore(op: Op, now: real) {
    op.Handshake? || op.Frame? ==> op.now >= now
  }

  /** A charger not overdue by some clock reading does not become so by operations after it. */
  lemma NotOverdueStep(node: string, s: State, op: Op, c: string, interval: real, now: real)
    requires !Expired(s, c, interval, now) && NotBefore(op, now) && interval >= 0.0
    ensures !Expired(Step(node, s, op), c, interval, now)
  {
    if op.Sweep? {
      SweepExact(s, op.chargers, op.interval, op.now);
    }
  }

  lemma {:induction false} NotOverdueRun(node: string, h: seq<Op>, i: nat, j: nat, c: string, interval: real, now: real)
    requires i <= j <= |h| && interval >= 0.0 && !Expired(Run(node, h[..i]), c, interval, now)
    requires forall k | i <= k < j :: NotBefore(h[k], now)
    ensures !Expired(Run(node, h[..j]), c, interval, now)
    decreases j
  {
    if i == j {
    } else {
      NotOverdueRun(node, h, i, j - 1, c, interval, now);
      assert h[..j][..j - 1] == h[..j - 1];
      NotOverdueStep(node, Run(node, h[..j - 1]), h[j - 1], c, interval, now);
    }
  }

  /**
   A sweep broken into parts by other operations: once it has come to a charger, that
   charger is never again overdue by the sweep's clock. So no charger is taken down
   twice, and when the sweep ends none of its list is left overdue.
   */
  lemma InterruptedSweepHolds(node: string, h: seq<Op>, i: nat, j: nat, c: string, interval: real, now: real)
    requires i < j <= |h| && interval >= 0.0 && forall k | i < k < j :: NotBefore(h[k], now)
    requires h[i].Sweep? && c in h[i].chargers && h[i].interval == interval && h[i].now == now
    ensures !Expired(Run(node, h[..j]), c, interval, now)
  {
    assert h[..i + 1][..i] == h[..i];
    SweepLeavesNoneExpired(Run(node, h[..i]), h[i].chargers, interval, now, c);
    NotOverdueRun(node, h, i + 1, j, c, interval, now);
  }

  // ----- whole runs -----

  /** Announcements of one charger. */
  function Announced(events: seq<Disconnected>, c: string): nat {
    if events == [] then 0
    else Announced(events[..|events| - 1], c) + if events[|events| - 1].charger == c then 1 else 0
  }

  function EventsFor(s: State, c: string): nat {
    Announced(s.events, c)
  }

  /** How often a charger went from online to offline over a run. */
  function Losses(node: string, h: seq<Op>, c: string): nat {
    if h == [] then 0 else
      Losses(node, h[..|h| - 1], c)
      + (if Online(Run(node, h[..|h| - 1]), c) && !Online(Run(node, h), c) then 1 else 0)
  }

  /** How often it came online. */
  function Arrivals(node: string, h: seq<Op>, c: string): nat {
    if h == [] then 0 else
      Arrivals(node, h[..|h| - 1], c)
      + (if !Online(Run(node, h[..|h| - 1]), c) && Online(Run(node, h), c) then 1 else 0)
  }

  /** Taking a charger down announces it and leaves every other as it was. */
  lemma TakeDownEvents(s: State, d: string, c: string)
    requires Online(s, d)
    ensures EventsFor(TakeDown(s, d), c) == EventsFor(s, c) + if c == d then 1 else 0
    ensures Online(TakeDown(s, d), c) <==> Online(s, c) && c != d
  {
    var events := TakeDown(s, d).events;
    assert events[..|events| - 1] == s.events;
  }

  lemma {:induction false} SweepEvents(s: State, cs: seq<string>, interval: real, now: real, c: string)
    ensures var s' := SweepAll(s, cs, interval, now);
            && EventsFor(s', c) == EventsFor(s, c) + (if Online(s, c) && !Online(s', c) then 1 else 0)
            && (Online(s', c) ==> Online(s, c))
  {
    if cs == [] {
    } else {
      var s1, d := SweepAll(s, cs[..|cs| - 1], interval, now), cs[|cs| - 1];
      SweepEvents(s, cs[..|cs| - 1], interval, now, c);
      if Expired(s1, d, interval, now) {
        TakeDownEvents(s1, d, c);
      }
    }
  }

  /** Every operation announces a charger's loss if and only if it takes it from online to offline. */
  lemma StepEvents(node: string, s: State, op: Op, c: string)
    ensures EventsFor(Step(node, s, op), c)
         == EventsFor(s, c) + if Online(s, c) && !Online(Step(node, s, op), c) then 1 else 0
  {
    if op.Sweep? {
      SweepEvents(s, op.chargers, op.interval, op.now, c);
    } else if op.Close? && Online(s, op.charger) {
      TakeDownEvents(s, op.charger, c);
    }
  }

  /**
   Disconnect accounting: the events announced for a charger are exactly its
   online-to-offline transitions, one per arrival that has ended.
   */
  lemma {:induction false} DisconnectsAreLosses(node: string, h: seq<Op>, c: string)
    ensures EventsFor(Run(node, h), c) == Losses(node, h, c)
    ensures Arrivals(node, h, c) == Losses(node, h, c) + (if Online(Run(node, h), c) then 1 else 0)
  {
    if h == [] {
    } else {
      DisconnectsAreLosses(node, h[..|h| - 1], c);
      StepEvents(node, Run(node, h[..|h| - 1]), h[|h| - 1], c);
    }
  }

  // ----- presence, read off the history -----

  /** The charger introduced itself with credentials and a protocol the gateway speaks. */
  predicate Greets(op: Op, c: string) {
    && op.Handshake? && op.charger == c && op.verified
    && (op.subprotocol == Some("ocpp1.6") || op.subprotocol == Some("ocpp2.0.1"))
  }

  /** Where it last did. */
  function GreetedAt(h: seq<Op>, c: string): Option<nat> {
    if h == [] then None
    else if Greets(h[|h| - 1], c) then Some(|h| - 1)
    else GreetedAt(h[..|h| - 1], c)
  }

  /** Where the charger was last heard from: a greeting, or a frame once it is known. */
  function HeardAt(h: seq<Op>, c: string): Option<nat> {
    if h == [] then None else
      var p, op := h[..|h| - 1], h[|h| - 1];
      if Greets(op, c) || (op.Frame? && op.charger == c && GreetedAt(p, c).Some?) then Some(|h| - 1)
      else HeardAt(p, c)
  }

  function TimeOf(op: Op): real {
    if op.Close? then 0.0 else op.now
  }

  /** A close, or a sweep that lists the charger more than twice the interval after it was heard from. */
  predicate Silences(op: Op, c: string, heard: real) {
    op == Close(c) || (op.Sweep? && c in op.chargers && op.now - heard > 2.0 * op.interval)
  }

  /** Nothing has silenced the charger since it was last heard from. */
  ghost predicate Audible(h: seq<Op>, c: string, k: nat)
    requires k < |h|
  {
    forall j | k < j < |h| :: !Silences(h[j], c, TimeOf(h[k]))
  }

  ghost predicate EntryIs(node: string, h: seq<Op>, c: string, e: Entry) {
    && GreetedAt(h, c).Some? && HeardAt(h, c).Some? && GreetedAt(h, c).value < |h| && HeardAt(h, c).value < |h|
    && var g, k := GreetedAt(h, c).value, HeardAt(h, c).value;
    && Greets(h[g], c) && e.tenant == h[g].tenant && e.node == node
    && Some(e.protocol) == h[g].subprotocol && e.connectedAt == TimeOf(h[g])
    && e.lastSeen == TimeOf(h[k]) && (e.online <==> Audible(h, c, k))
  }

  lemma AudibleSnoc(h: seq<Op>, c: string, k: nat)
    requires h != [] && k < |h| - 1
    ensures Audible(h, c, k) <==> Audible(h[..|h| - 1], c, k) && !Silences(h[|h| - 1], c, TimeOf(h[k]))
  {
    var n := |h| - 1;
    assert forall j | 0 <= j < n :: h[..n][j] == h[j];
    if Audible(h, c, k) {
      forall j | k < j < n ensures !Silences(h[..n][j], c, TimeOf(h[k])) {
        assert !Silences(h[j], c, TimeOf(h[k]));
      }
    }
  }

  /** What an operation other than hearing from the charger does to its entry. */
  lemma SilenceStep(node: string, s: State, op: Op, c: string)
    requires !Greets(op, c) && !(op.Frame? && op.charger == c)
    ensures var s' := Step(node, s, op);
            && (c in s'.entries <==> c in s.entries)
            && (c in s.entries ==>
                  s'.entries[c] == s.entries[c].(online := s.entries[c].online && !Silences(op, c, s.entries[c].lastSeen)))
  {
    if op.Sweep? {
      SweepExact(s, op.chargers, op.interval, op.now);
    }
  }

  lemma HeardStep(node: string, s: State, op: Op, c: string)
    requires Greets(op, c) || (op.Frame? && op.charger == c)
    ensures var s' := Step(node, s, op);
            && (c in s'.entries <==> c in s.entries || op.Handshake?)
            && (c in s'.entries ==>
                  && s'.entries[c].online && s'.entries[c].lastSeen == op.now
                  && if op.Handshake? then s'.entries[c] == Entry(op.tenant, true, node, op.subprotocol.value, op.now, op.now)
                     else s'.entries[c] == s.entries[c].(online := true, lastSeen := op.now))
  {
  }

  /**
   Presence in every run: a charger is known exactly once it has greeted; its entry is that of its
   last greeting; it was last seen when last heard from; and it is online if and only if since then neither
   a close nor a sweep that lists it more than twice the interval later has come.
   */
  lemma {:induction false} PresenceIsLastHeard(node: string, h: seq<Op>, c: string)
    ensures c in Run(node, h).entries <==> GreetedAt(h, c).Some?
    ensures c in Run(node, h).entries ==> EntryIs(node, h, c, Run(node, h).entries[c])
  {
    if h == [] {
    } else {
      var p, op := h[..|h| - 1], h[|h| - 1];
      var s := Run(node, p);
      PresenceIsLastHeard(node, p, c);
      if Greets(op, c) || (op.Frame? && op.charger == c) {
        HeardStep(node, s, op, c);
      } else {
        SilenceStep(node, s, op, c);
        if c in s.entries {
          AudibleSnoc(h, c, HeardAt(p, c).value);
        }
      }
    }
  }

  /** A sweep returns exactly the listed chargers that are online and were last heard from more than twice the interval ago. */
  lemma SweepReturnsIff(node: string, h: seq<Op>, cs: seq<string>, interval: real, now: real, c: string)
    ensures c in ExpiredOf(Run(node, h), cs, interval, now) <==>
              && c in cs && HeardAt(h, c).Some? && HeardAt(h, c).value < |h|
              && Audible(h, c, HeardAt(h, c).value) && now - TimeOf(h[HeardAt(h, c).value]) > 2.0 * interval
  {
    PresenceIsLastHeard(node, h, c);
    HeardIsKnown(h, c);
    ExpiredOfExact(Run(node, h), cs, interval, now);
  }

  lemma {:induction false} HeardIsKnown(h: seq<Op>, c: string)
    ensures HeardAt(h, c).Some? <==> GreetedAt(h, c).Some?
  {
    if h == [] {
    } else {
      HeardIsKnown(h[..|h| - 1], c);
    }
  }

  // ----- the connection manager -----

  datatype HandshakeResult = UnsupportedSubprotocol | InvalidCredentials | Accepted(protocol: string)

  class ConnectionManager {
    const node: string
    var entries: map<string, Entry>
    var events: seq<Disconnected>
    ghost var history: seq<Op>

    ghost function Snapshot(): State
      reads this
    {
      State(entries, events)
    }

    ghost predicate Valid()
      reads this
    {
      Snapshot() == Run(node, history)
    }

    constructor (node: string)
      ensures Valid() && history == [] && this.node == node
    {
      this.node := node;
      entries, events, history := map[], [], [];
    }

    ghost method Log(op: Op)
      requires Snapshot() == Step(node, Run(node, history), op)
      modifies this`history
      ensures Valid() && history == old(history) + [op]
    {
      history := history + [op];
      assert history[..|history| - 1] == old(history);
    }

    method HandleHandshake(c: string, tenant: nat, verified: bool, subprotocol: Option<string>, now: real)
      returns (r: HandshakeResult)
      requires Valid()
      modifies this
      ensures Valid() && history == old(history) + [Handshake(c, tenant, verified, subprotocol, now)]
      ensures r == if !Supported(subprotocol) then UnsupportedSubprotocol
                   else if !verified then InvalidCredentials
                   else Accepted(subprotocol.value)
    {
      if !Supported(subprotocol) {
        r := UnsupportedSubprotocol;
      } else if !verified {
        r := InvalidCredentials;
      } else {
        r := Accepted(subprotocol.value);
        entries := entries[c := Entry(tenant, true, node, subprotocol.value, now, now)];
      }
      Log(Handshake(c, tenant, verified, subprotocol, now));
    }

    method HandleInboundFrame(c: string, now: real)
      requires Valid()
      modifies this
      ensures Valid() && history == old(history) + [Frame(c, now)]
    {
      if c in entries {
        entries := entries[c := entries[c].(lastSeen := now, online := true)];
      }
      Log(Frame(c, now));
    }

    method HandleDisconnect(c: string)
      requires Valid()
      modifies this
      ensures Valid() && history == old(history) + [Close(c)]
    {
      if c in entries && entries[c].online {
        var tenant := entries[c].tenant;
        entries := entries[c := entries[c].(online := false)];
        events := events + [Disconnected(tenant, c)];
      }
      Log(Close(c));
    }

    method CheckAndExpireHeartbeats(cs: seq<string>, interval: real, now: real) returns (offline: seq<string>)
      requires Valid()
      modifies this
      ensures Valid() && history == old(history) + [Sweep(cs, interval, now)]
      ensures NoDup(offline)
      ensures forall c :: c in offline <==>
                c in cs && c in old(entries) && old(entries)[c].online && now - old(entries)[c].lastSeen > 2.0 * interval
      ensures forall c | c in cs :: !Expired(Snapshot(), c, interval, now)
      ensures |events| == |old(events)| + |offline|
    {
      offline := [];
      ghost var s := Snapshot();
      for i := 0 to |cs|
        invariant Snapshot() == SweepAll(s, cs[..i], interval, now) && history == old(history)
        invariant offline == ExpiredOf(s, cs[..i], interval, now)
      {
        SweepExact(s, cs[..i], interval, now);
        assert cs[..i + 1][..i] == cs[..i];
        var c := cs[i];
        if c in entries && entries[c].online && now - entries[c].lastSeen > interval * 2.0 {
          var tenant := entries[c].tenant;
          entries := entries[c := entries[c].(online := false)];
          events := events + [Disconnected(tenant, c)];
          offline := offline + [c];
        }
      }
      assert cs[..|cs|] == cs;
      ExpiredOfExact(s, cs, interval, now);
      SweepAnnounces(s, cs, interval, now);
      forall c | c in cs ensures !Expired(Snapshot(), c, interval, now) {
        SweepLeavesNoneExpired(s, cs, interval, now, c);
      }
      Log(Sweep(cs, interval, now));
    }
  }
}
