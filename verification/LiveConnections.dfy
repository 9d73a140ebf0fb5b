/**
 Server-initiated OCPP-J calls on one shared socket. A call is correlated with
 the charge point's CallResult or CallError by its unique id alone. Events are
 the atomic pieces of `send_call`, of the receive loop and of the timer behind
 `wait_for`; they interleave in any order.
 */
module LiveConnections {
  import opened Seqs

  type Id = string
  type Payload = string

  /** A CallResult frame, or a CallError frame with its code and description. */
  datatype Reply = Result(payload: Payload) | Error(code: string, description: string)

  datatype Future = Unset | Set(reply: Reply) | Cancelled

  datatype CallFrame = CallFrame(id: Id, action: string, payload: Payload)

  datatype Outcome = Replied(reply: Reply) | TimedOut | Failed

  datatype State = State(
    pending: map<Id, Future>,
    fired: set<Id>,
    sent: map<Id, CallFrame>,
    ended: map<Id, Outcome>)

  /**
   Send registers the future and writes the frame. Frame is an arriving reply.
   Expire is the timer of a call firing. The last three are a waiting call
   resuming: with its reply, on its timer, or because writing the frame raised.
   A timer may fire after the reply came and before the call resumes; which of
   the two the call then sees is left open.
   */
  datatype Event =
    | Send(call: CallFrame)
    | Frame(id: Id, reply: Reply)
    | Expire(id: Id)
    | Return(id: Id)
    | GiveUp(id: Id)
    | Break(id: Id)

  const IDLE := State(map[], {}, map[], map[])

  predicate Enabled(s: State, e: Event) {
    match e
    case Send(c) => c.id !in s.sent
    case Frame(_, _) => true
    case Expire(id) => id in s.pending
    case Return(id) => id in s.pending && s.pending[id].Set?
    case GiveUp(id) => id in s.pending && id in s.fired
    case Break(id) => id in s.pending
  }

  function Finish(s: State, id: Id, o: Outcome): State {
    s.(pending := s.pending - {id}, ended := s.ended[id := o])
  }

  /** An event that is not enabled cannot fire and leaves the state as it is. */
  function Step(s: State, e: Event): State {
    if !Enabled(s, e) then s else
    match e
    case Send(c) => s.(pending := s.pending[c.id := Unset], sent := s.sent[c.id := c])
    case Frame(id, reply) =>
      if id in s.pending && s.pending[id].Unset? then s.(pending := s.pending[id := Set(reply)]) else s
    case Expire(id) =>
      s.(fired := s.fired + {id},
         pending := if s.pending[id].Unset? then s.pending[id := Cancelled] else s.pending)
    case Return(id) => Finish(s, id, Replied(s.pending[id].reply))
    case GiveUp(id) => Finish(s, id, TimedOut)
    case Break(id) => Finish(s, id, Failed)
  }

  function Run(h: seq<Event>): State {
    if h == [] then IDLE else Step(Run(h[..|h| - 1]), h[|h| - 1])
  }

  // ----- the reference, read off the history -----

  function SentIds(h: seq<Event>): set<Id> {
    if h == [] then {} else
      SentIds(h[..|h| - 1]) + (if h[|h| - 1].Send? then {h[|h| - 1].call.id} else {})
  }

  /** The first frame naming `id` that arrived after the call was sent. */
  function FirstReply(h: seq<Event>, id: Id): Option<Reply> {
    if h == [] then None else
      var p, e := h[..|h| - 1], h[|h| - 1];
      if FirstReply(p, id).Some? then FirstReply(p, id)
      else if e.Frame? && e.id == id && id in SentIds(p) then Some(e.reply)
      else None
  }

  /** Calls whose timer went off while they were unfinished. */
  function Fired(h: seq<Event>): set<Id> {
    if h == [] then {} else
      var p, e := h[..|h| - 1], h[|h| - 1];
      Fired(p) + (if e.Expire? && Enabled(Run(p), e) then {e.id} else {})
  }

  predicate Completes(e: Event, id: Id) {
    (e.Return? || e.GiveUp? || e.Break?) && e.id == id
  }

  /** How many times the call `id` came back to its caller. */
  function Completions(h: seq<Event>, id: Id): nat {
    if h == [] then 0 else
      var p, e := h[..|h| - 1], h[|h| - 1];
      Completions(p, id) + (if Completes(e, id) && Enabled(Run(p), e) then 1 else 0)
  }

  ghost predicate FutureOk(f: Future, first: Option<Reply>, fired: bool) {
    match f
    case Unset => first.None? && !fired
    case Set(r) => first == Some(r)
    case Cancelled => fired
  }

  ghost predicate OutcomeOk(o: Outcome, first: Option<Reply>, fired: bool) {
    match o
    case Replied(r) => first == Some(r)
    case TimedOut => fired
    case Failed => true
  }

  /** Everything known about one call, given what its history says of it. */
  ghost predicate CallOk(s: State, id: Id, wasSent: bool, completions: nat, fired: bool, first: Option<Reply>) {
    && (id in s.sent <==> wasSent)
    && (id in s.pending <==> wasSent && completions == 0)
    && (id in s.ended <==> completions == 1)
    && completions <= (if wasSent then 1 else 0)
    && (id in s.fired <==> fired)
    && (fired ==> wasSent)
    && (!wasSent ==> first.None?)
    && (id in s.pending ==> FutureOk(s.pending[id], first, fired))
    && (id in s.ended ==> OutcomeOk(s.ended[id], first, fired))
  }

  predicate About(e: Event, id: Id) {
    if e.Send? then e.call.id == id else e.id == id
  }

  /** An event about another call leaves this one alone. */
  lemma OtherEvent(s: State, e: Event, id: Id, wasSent: bool, completions: nat, fired: bool, first: Option<Reply>)
    requires CallOk(s, id, wasSent, completions, fired, first) && !About(e, id)
    ensures CallOk(Step(s, e), id, wasSent, completions, fired, first)
  {
  }

  lemma OwnEvent(s: State, e: Event, id: Id, wasSent: bool, completions: nat, fired: bool, first: Option<Reply>)
    requires CallOk(s, id, wasSent, completions, fired, first) && About(e, id)
    ensures CallOk(Step(s, e), id, wasSent || e.Send?,
                   completions + (if Completes(e, id) && Enabled(s, e) then 1 else 0),
                   fired || (e.Expire? && Enabled(s, e)),
                   if first.Some? then first else if e.Frame? && wasSent then Some(e.reply) else None)
  {
  }

  lemma {:induction false} Reachable(h: seq<Event>, id: Id)
    ensures CallOk(Run(h), id, id in SentIds(h), Completions(h, id), id in Fired(h), FirstReply(h, id))
  {
    if h == [] {
    } else {
      var p, e := h[..|h| - 1], h[|h| - 1];
      Reachable(p, id);
      if About(e, id) {
        OwnEvent(Run(p), e, id, id in SentIds(p), Completions(p, id), id in Fired(p), FirstReply(p, id));
      } else {
        OtherEvent(Run(p), e, id, id in SentIds(p), Completions(p, id), id in Fired(p), FirstReply(p, id));
      }
    }
  }

  /** `_pending` holds exactly the calls sent and not yet back. */
  lemma PendingIsUnfinished(h: seq<Event>, id: Id)
    ensures id in Run(h).pending <==> id in SentIds(h) && Completions(h, id) == 0
  {
    Reachable(h, id);
  }

  /**
   Every call comes back at most once. One that comes back with a reply has the
   first frame that named it since it was sent, so never another call's reply,
   a duplicate or a stray; one that comes back as timed out had its timer fire.
   */
  lemma EndsOnceWithItsOwnReply(h: seq<Event>, id: Id)
    ensures Completions(h, id) <= 1
    ensures id in Run(h).ended <==> Completions(h, id) == 1
    ensures id in Run(h).ended ==>
              && id in SentIds(h)
              && (Run(h).ended[id].Replied? ==> FirstReply(h, id) == Some(Run(h).ended[id].reply))
              && (Run(h).ended[id].TimedOut? ==> id in Fired(h))
  {
    Reachable(h, id);
  }

  /**
   A reply frame does something if and only if it names a call that is sent and
   unfinished, has had no reply, and has not timed out.
   */
  lemma FrameTakesEffect(h: seq<Event>, id: Id, reply: Reply)
    ensures Step(Run(h), Frame(id, reply)) != Run(h) <==>
              id in SentIds(h) && Completions(h, id) == 0 && FirstReply(h, id).None? && id !in Fired(h)
  {
    Reachable(h, id);
    var s := Run(h);
    if id in s.pending && s.pending[id].Unset? {
      assert Step(s, Frame(id, reply)).pending[id] == Set(reply);
    }
  }

  /** What was sent, how calls ended and which reply came first is never rewritten. */
  lemma EndsAreFinal(h: seq<Event>, e: Event, id: Id)
    ensures id in Run(h).sent ==> id in Run(h + [e]).sent && Run(h + [e]).sent[id] == Run(h).sent[id]
    ensures id in Run(h).ended ==> id in Run(h + [e]).ended && Run(h + [e]).ended[id] == Run(h).ended[id]
    ensures FirstReply(h, id).Some? ==> FirstReply(h + [e], id) == FirstReply(h, id)
  {
    assert (h + [e])[..|h|] == h;
    Reachable(h, id);
  }

  // ----- how a call ends -----

  /** The event that brought the call back to its caller. */
  function EndedBy(h: seq<Event>, id: Id): Option<Event> {
    if h == [] then None else
      var p, e := h[..|h| - 1], h[|h| - 1];
      if EndedBy(p, id).Some? then EndedBy(p, id)
      else if Completes(e, id) && Enabled(Run(p), e) then Some(e)
      else None
  }

  /** What the caller gets, by what brought the call back. */
  ghost predicate EndsAs(o: Outcome, e: Event, first: Option<Reply>) {
    if e.Return? then first.Some? && o == Replied(first.value)
    else if e.GiveUp? then o == TimedOut
    else o == Failed
  }

  lemma EndStep(s: State, e: Event, id: Id, first: Option<Reply>)
    requires Completes(e, id) && Enabled(s, e) && FutureOk(s.pending[id], first, id in s.fired)
    ensures id in Step(s, e).ended && EndsAs(Step(s, e).ended[id], e, first)
  {
  }

  /**
   A call that resumes with its reply returns the first frame that named it, one that
   resumes on its timer times out, one whose frame could not be written fails.
   */
  lemma {:induction false} EndIsDecided(h: seq<Event>, id: Id)
    ensures id in Run(h).ended <==> EndedBy(h, id).Some?
    ensures id in Run(h).ended ==> EndsAs(Run(h).ended[id], EndedBy(h, id).value, FirstReply(h, id))
    ensures EndedBy(h, id).Some? ==> Completes(EndedBy(h, id).value, id)
  {
    Reachable(h, id);
    if h == [] {
    } else {
      var p, e := h[..|h| - 1], h[|h| - 1];
      EndIsDecided(p, id);
      Reachable(p, id);
      assert h == p + [e];
      EndsAreFinal(p, e, id);
      if EndedBy(p, id).None? && EndedBy(h, id).Some? {
        EndStep(Run(p), e, id, FirstReply(p, id));
      }
    }
  }

  /** A reply came while the call was unfinished and its timer had not fired. */
  predicate InTime(h: seq<Event>, id: Id) {
    if h == [] then false else
      var p, e := h[..|h| - 1], h[|h| - 1];
      InTime(p, id) || (e.Frame? && e.id == id && id in SentIds(p) && Completions(p, id) == 0 && id !in Fired(p))
  }

  ghost predicate FutureIs(f: Future, inTime: bool, fired: bool) {
    if inTime then f.Set? else if fired then f.Cancelled? else f.Unset?
  }

  lemma FutureStep(s: State, e: Event, id: Id, inTime: bool)
    requires id in s.pending && FutureIs(s.pending[id], inTime, id in s.fired) && id in s.sent && id in Step(s, e).pending
    ensures FutureIs(Step(s, e).pending[id], inTime || (e.Frame? && e.id == id && id !in s.fired), id in Step(s, e).fired)
  {
  }

  /**
   An unfinished call holds its reply if and only if one came before its timer fired; a timer
   that fires later does not take the reply away. So a call can come back with its reply exactly then.
   */
  lemma {:induction false} HoldsReplyIffInTime(h: seq<Event>, id: Id)
    requires id in Run(h).pending
    ensures FutureIs(Run(h).pending[id], InTime(h, id), id in Fired(h))
    ensures Enabled(Run(h), Return(id)) <==> InTime(h, id)
  {
    Reachable(h, id);
    var p, e := h[..|h| - 1], h[|h| - 1];
    Reachable(p, id);
    if id in Run(p).pending {
      HoldsReplyIffInTime(p, id);
      FutureStep(Run(p), e, id, InTime(p, id));
    } else {
      NotInTimeUnsent(p, id);
    }
  }

  lemma {:induction false} NotInTimeUnsent(h: seq<Event>, id: Id)
    requires id !in SentIds(h)
    ensures !InTime(h, id)
  {
    if h == [] {
    } else {
      NotInTimeUnsent(h[..|h| - 1], id);
    }
  }

  /** A call whose timer never fired and whose frame could be written comes back, if at all, with its reply. */
  lemma AnsweredInTime(h: seq<Event>, id: Id)
    requires EndedBy(h, id).Some? && id !in Fired(h) && !EndedBy(h, id).value.Break?
    ensures FirstReply(h, id).Some? && id in Run(h).ended && Run(h).ended[id] == Replied(FirstReply(h, id).value)
  {
    EndIsDecided(h, id);
    EndsOnceWithItsOwnReply(h, id);
  }

  /** The frame first sent under an id. */
  function SentAs(h: seq<Event>, id: Id): Option<CallFrame> {
    if h == [] then None else
      var p, e := h[..|h| - 1], h[|h| - 1];
      if SentAs(p, id).Some? then SentAs(p, id)
      else if e.Send? && e.call.id == id then Some(e.call)
      else None
  }

  /** The frame on record is the one sent, action and payload included. */
  lemma {:induction false} SentIsRecorded(h: seq<Event>, id: Id)
    ensures id in Run(h).sent <==> SentAs(h, id).Some?
    ensures id in Run(h).sent ==> Run(h).sent[id] == SentAs(h, id).value
  {
    if h == [] {
    } else {
      SentIsRecorded(h[..|h| - 1], id);
    }
  }

  // ----- the connection object -----

  class LiveConnection {
    var pending: map<Id, Future>
    var fired: set<Id>
    var sent: map<Id, CallFrame>
    var ended: map<Id, Outcome>
    ghost var history: seq<Event>

    ghost predicate Valid()
      reads this
    {
      State(pending, fired, sent, ended) == Run(history)
    }

    constructor ()
      ensures Valid() && history == []
    {
      pending, fired, sent, ended, history := map[], {}, map[], map[], [];
    }

    ghost method Log(e: Event)
      requires State(pending, fired, sent, ended) == Step(Run(history), e)
      modifies this`history
      ensures Valid() && history == old(history) + [e]
    {
      history := history + [e];
      assert history[..|history| - 1] == old(history);
    }

    /** The first half of `send_call`: register the future, write the frame. */
    method BeginCall(id: Id, action: string, payload: Payload)
      requires Valid() && id !in sent
      modifies this
      ensures Valid() && history == old(history) + [Send(CallFrame(id, action, payload))]
    {
      pending := pending[id := Unset];
      sent := sent[id := CallFrame(id, action, payload)];
      Log(Send(CallFrame(id, action, payload)));
    }

    method Resolve(id: Id, payload: Payload) returns (taken: bool)
      requires Valid()
      modifies this
      ensures Valid() && history == old(history) + [Frame(id, Result(payload))]
      ensures taken <==> Run(history) != Run(old(history))
    {
      taken := Deliver(id, Result(payload));
    }

    method Reject(id: Id, code: string, description: string) returns (taken: bool)
      requires Valid()
      modifies this
      ensures Valid() && history == old(history) + [Frame(id, Error(code, description))]
      ensures taken <==> Run(history) != Run(old(history))
    {
      taken := Deliver(id, Error(code, description));
    }

    method Deliver(id: Id, reply: Reply) returns (taken: bool)
      requires Valid()
      modifies this
      ensures Valid() && history == old(history) + [Frame(id, reply)]
      ensures taken <==> Run(history) != Run(old(history))
    {
      taken := id in pending && pending[id].Unset?;
      if taken {
        pending := pending[id := Set(reply)];
        assert pending[id] != old(pending)[id];
      }
      Log(Frame(id, reply));
    }

    /** `wait_for`'s timer cancels a future that has no reply. */
    method FireTimer(id: Id)
      requires Valid() && id in pending
      modifies this
      ensures Valid() && history == old(history) + [Expire(id)]
    {
      fired := fired + {id};
      if pending[id].Unset? {
        pending := pending[id := Cancelled];
      }
      Log(Expire(id));
    }

    /** The second half of `send_call`: its answer, and the entry dropped whatever happened. */
    method EndCall(id: Id, onTimer: bool) returns (o: Outcome)
      requires Valid() && id in pending
      requires if onTimer then id in fired else pending[id].Set?
      modifies this
      ensures Valid() && history == old(history) + [if onTimer then GiveUp(id) else Return(id)]
      ensures id !in pending && id in ended && ended[id] == o
    {
      o := if onTimer then TimedOut else Replied(pending[id].reply);
      pending := pending - {id};
      ended := ended[id := o];
      Log(if onTimer then GiveUp(id) else Return(id));
    }

    method AbandonCall(id: Id)
      requires Valid() && id in pending
      modifies this
      ensures Valid() && history == old(history) + [Break(id)]
      ensures id !in pending
    {
      pending := pending - {id};
      ended := ended[id := Failed];
      Log(Break(id));
    }
  }

  // ----- the per-process registry -----

  datatype Move<K, C> = Register(charger: K, conn: C) | Unregister(charger: K, conn: C)

  function Apply<K(==), C(==)>(r: map<K, C>, m: Move<K, C>): map<K, C> {
    match m
    case Register(c, x) => r[c := x]
    case Unregister(c, x) => if c in r && r[c] == x then r - {c} else r
  }

  function Registry<K(==), C(==)>(ms: seq<Move<K, C>>): map<K, C> {
    if ms == [] then map[] else Apply(Registry(ms[..|ms| - 1]), ms[|ms| - 1])
  }

  /** x registered for c at i; nothing registered for c since, and x did not unregister. */
  ghost predicate HoldsSince<K, C>(ms: seq<Move<K, C>>, c: K, x: C, i: int) {
    && 0 <= i < |ms| && ms[i] == Register(c, x)
    && forall j | i < j < |ms| :: !(ms[j].Register? && ms[j].charger == c) && ms[j] != Unregister(c, x)
  }

  /**
   A charger resolves to its most recently registered connection until that same
   connection unregisters; older connections closing late change nothing.
   */
  lemma {:induction false} RegistryIsLatest<K, C>(ms: seq<Move<K, C>>, c: K, x: C)
    ensures c in Registry(ms) && Registry(ms)[c] == x <==> exists i :: HoldsSince(ms, c, x, i)
  {
    if ms == [] {
    } else {
      var n := |ms| - 1;
      var p, m := ms[..n], ms[n];
      RegistryIsLatest(p, c, x);
      if i :| HoldsSince(ms, c, x, i) {
        if i < n {
          assert HoldsSince(p, c, x, i);
        }
      }
      if c in Registry(ms) && Registry(ms)[c] == x {
        if m == Register(c, x) {
          assert HoldsSince(ms, c, x, n);
        } else {
          var i :| HoldsSince(p, c, x, i);
          assert ms[i] == p[i];
          assert HoldsSince(ms, c, x, i);
        }
      }
    }
  }

  class LiveConnectionRegistry {
    var connections: map<string, LiveConnection>
    ghost var history: seq<Move<string, LiveConnection>>

    ghost predicate Valid()
      reads this
    {
      connections == Registry(history)
    }

    constructor ()
      ensures Valid() && history == []
    {
      connections, history := map[], [];
    }

    method RegisterConnection(charger: string, connection: LiveConnection)
      requires Valid()
      modifies this
      ensures Valid() && history == old(history) + [Register(charger, connection)]
      ensures connections == old(connections)[charger := connection]
    {
      connections := connections[charger := connection];
      history := history + [Register(charger, connection)];
      assert history[..|history| - 1] == old(history);
    }

    method UnregisterConnection(charger: string, connection: LiveConnection)
      requires Valid()
      modifies this
      ensures Valid() && history == old(history) + [Unregister(charger, connection)]
      ensures charger in connections ==> connections[charger] != connection
    {
      if charger in connections && connections[charger] == connection {
        connections := connections - {charger};
      }
      history := history + [Unregister(charger, connection)];
      assert history[..|history| - 1] == old(history);
    }

    /** The connection returned is the latest registration still standing. */
    method Get(charger: string) returns (found: bool, connection: LiveConnection?)
      requires Valid()
      ensures found <==> connection != null
      ensures found ==> exists i :: HoldsSince(history, charger, connection, i)
      ensures !found ==> forall x: LiveConnection, i :: !HoldsSince(history, charger, x, i)
    {
      found := charger in connections;
      connection := null;
      if found {
        connection := connections[charger];
        RegistryIsLatest(history, charger, connections[charger]);
      } else {
        forall x: LiveConnection, i ensures !HoldsSince(history, charger, x, i) {
          RegistryIsLatest(history, charger, x);
        }
      }
    }
  }
}
