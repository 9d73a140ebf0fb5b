/**
 The outbound command chain: `send_command` with its log on one side, the
 gateway node holding the socket on the other, a message broker in between that
 may lose, delay or garble a request or its answer. Each command runs through
 a sender part and a bridge part; each live connection is the machine of
 LiveConnections, kept here as its own history of events.
 */
module CommandChain {
  import opened Seqs
  import L = LiveConnections

  type CommandId = nat
  type ConnId = nat

  // ----- addressing -----

  function Subject(node: string, charger: string): string {
    "ocpp-cmd." + node + "." + charger
  }

  /** What the node takes for the charger id: the text after the last dot. */
  function LastToken(s: string): string {
    if s == "" || s[|s| - 1] == '.' then "" else LastToken(s[..|s| - 1]) + [s[|s| - 1]]
  }

  /** A node's subscription `ocpp-cmd.{node}.*`: one non-empty token after the node. */
  predicate Subscribes(node: string, subject: string) {
    LastToken(subject) != "" && subject == Subject(node, LastToken(subject))
  }

  lemma {:induction false} LastTokenOfSuffix(p: string, c: string)
    ensures LastToken(p + "." + c) == LastToken(c)
  {
    var s := p + "." + c;
    if c == "" {
      assert s[|s| - 1] == '.';
    } else {
      assert s[..|s| - 1] == p + "." + c[..|c| - 1];
      LastTokenOfSuffix(p, c[..|c| - 1]);
    }
  }

  lemma {:induction false} LastTokenDotFree(c: string)
    ensures '.' !in LastToken(c)
    ensures LastToken(c) == c <==> '.' !in c
  {
    if c == "" || c[|c| - 1] == '.' {
    } else {
      LastTokenDotFree(c[..|c| - 1]);
      assert c == c[..|c| - 1] + [c[|c| - 1]];
    }
  }

  /**
   The node reads back the charger a command was addressed to exactly when the
   charger id has no dot; then only the addressed node is subscribed to it.
   */
  lemma CommandsReachTheirCharger(node: string, other: string, charger: string)
    ensures LastToken(Subject(node, charger)) == charger <==> '.' !in charger
    ensures '.' !in charger ==> (Subscribes(other, Subject(node, charger)) <==> other == node && charger != "")
  {
    LastTokenOfSuffix("ocpp-cmd." + node, charger);
    LastTokenDotFree(charger);
    if '.' !in charger && Subscribes(other, Subject(node, charger)) {
      var s := Subject(node, charger);
      assert s[9..9 + |node|] == node;
      assert s == Subject(other, charger) && |node| == |other|;
      assert s[9..9 + |other|] == other;
    }
  }

  /** With a dot in the id, a command can reach another node as another charger. */
  lemma DottedIdMisroutes(node: string, x: string, y: string)
    requires y != "" && '.' !in y
    ensures Subscribes(node + "." + x, Subject(node, x + "." + y))
    ensures LastToken(Subject(node, x + "." + y)) == y
  {
    var n := "ocpp-cmd." + node;
    var s := Subject(node, x + "." + y);
    assert s == (n + "." + x) + "." + y;
    LastTokenOfSuffix(n + "." + x, y);
    LastTokenDotFree(y);
    assert "ocpp-cmd." + (node + "." + x) == n + "." + x;
  }

  // ----- the state of the chain -----

  datatype Status = Pending | Accepted | Rejected | TimedOut

  /** What comes with a status: the charge point's payload, its error, or a reason given on the way. */
  datatype Detail = Payload(value: L.Payload) | CallFailed(code: string, description: string) | Reason(text: string)

  datatype Outcome = Outcome(status: Status, result: Option<Detail>)

  datatype Order = Order(node: string, charger: string, kind: string, payload: L.Payload)

  /** The body a node answers with. */
  datatype Wire = Wire(status: string, result: Option<Detail>)

  datatype Call = Call(conn: ConnId, id: L.Id)

  /** Raised: the transport raised instead of returning, and the error went to the caller. */
  datatype Sender = Refused | Waiting | Raised | Received(outcome: Outcome) | Returned(outcome: Outcome)

  datatype Bridge = Calling(call: Call) | Answered(made: Option<Call>, wire: Wire)

  datatype State = State(
    conns: map<ConnId, seq<L.Event>>,
    owner: map<ConnId, (string, string)>,
    registry: map<(string, string), ConnId>,
    orders: map<CommandId, Order>,
    log: map<CommandId, Outcome>,
    senders: map<CommandId, Sender>,
    bridges: map<CommandId, Bridge>)

  datatype Event =
    | Connect(node: string, charger: string, conn: ConnId)
    | Disconnect(conn: ConnId)
    | Socket(conn: ConnId, event: L.Event)
    | Issue(cmd: CommandId, order: Order, online: bool)
    | Deliver(cmd: CommandId, node: string, id: L.Id)
    | Respond(cmd: CommandId)
    | Receive(cmd: CommandId)
    | Lose(cmd: CommandId, reply: Reply)
    | Raise(cmd: CommandId)
    | Mark(cmd: CommandId)

  const EMPTY := State(map[], map[], map[], map[], map[], map[], map[])

  /** How a node words the end of a call. */
  function Answer(o: L.Outcome): Wire {
    match o
    case Replied(Result(p)) => Wire("accepted", Some(Payload(p)))
    case Replied(Error(code, text)) => Wire("rejected", Some(CallFailed(code, text)))
    case TimedOut => Wire("timed_out", None)
    case Failed => Wire("rejected", Some(Reason("internal error")))
  }

  /** How the sender reads a status; anything it does not know is a rejection. */
  function StatusOf(s: string): Status {
    if s == "accepted" then Accepted else if s == "timed_out" then TimedOut else Rejected
  }

  const NO_ANSWER := "no response from the gateway node holding this charger's connection"
  const GARBLED := "malformed response from gateway node"

  function NobodyListens(order: Order): string {
    "no gateway node is listening for charger " + order.charger + " (node " + order.node + ")"
  }

  /** What the sender's request comes back with: a body, or one of three ways to get none. */
  datatype Reply = Body(wire: Wire) | NoAnswer | NoResponders | Garbled

  function Read(order: Order, r: Reply): (o: Outcome)
    ensures o.status != Pending
    ensures o.status == Accepted <==> r.Body? && r.wire.status == "accepted"
  {
    match r
    case Body(w) => Outcome(StatusOf(w.status), w.result)
    case NoAnswer => Outcome(TimedOut, Some(Reason(NO_ANSWER)))
    case NoResponders => Outcome(Rejected, Some(Reason(NobodyListens(order))))
    case Garbled => Outcome(Rejected, Some(Reason(GARBLED)))
  }

  const OFFLINE := Outcome(Rejected, Some(Reason("charger offline")))

  function Addressee(s: State, cmd: CommandId, node: string): (string, string)
    requires cmd in s.orders
  {
    (node, LastToken(Subject(s.orders[cmd].node, s.orders[cmd].charger)))
  }

  predicate Enabled(s: State, e: Event) {
    match e
    case Connect(_, _, conn) => conn !in s.owner
    case Disconnect(conn) => conn in s.owner
    case Socket(conn, event) => conn in s.conns && !event.Send?
    case Issue(cmd, _, _) => cmd !in s.orders
    case Deliver(cmd, node, id) =>
      && cmd in s.orders && cmd in s.senders && !s.senders[cmd].Refused? && cmd !in s.bridges
      && Subscribes(node, Subject(s.orders[cmd].node, s.orders[cmd].charger))
      && (var a := Addressee(s, cmd, node);
          a in s.registry ==> s.registry[a] in s.conns && id !in L.Run(s.conns[s.registry[a]]).sent)
    case Respond(cmd) =>
      && cmd in s.bridges && s.bridges[cmd].Calling? && s.bridges[cmd].call.conn in s.conns
      && s.bridges[cmd].call.id in L.Run(s.conns[s.bridges[cmd].call.conn]).ended
    case Receive(cmd) =>
      cmd in s.orders && cmd in s.senders && s.senders[cmd].Waiting? && cmd in s.bridges && s.bridges[cmd].Answered?
    case Lose(cmd, reply) => cmd in s.orders && cmd in s.senders && s.senders[cmd].Waiting? && !reply.Body?
    case Raise(cmd) => cmd in s.senders && s.senders[cmd].Waiting?
    case Mark(cmd) => cmd in s.senders && s.senders[cmd].Received?
  }

  const NOT_CONNECTED := Answered(None, Wire("rejected", Some(Reason("charger not connected on this node"))))

  /** The node sends the command as a call on the charger's registered connection. */
  function PutOnSocket(s: State, cmd: CommandId, conn: ConnId, id: L.Id): State
    requires cmd in s.orders && conn in s.conns
  {
    var frame := L.CallFrame(id, s.orders[cmd].kind, s.orders[cmd].payload);
    s.(conns := s.conns[conn := s.conns[conn] + [L.Send(frame)]],
       bridges := s.bridges[cmd := Calling(Call(conn, id))])
  }

  function Step(s: State, e: Event): State {
    if !Enabled(s, e) then s else
    match e
    case Connect(node, charger, conn) =>
      s.(conns := s.conns[conn := []], owner := s.owner[conn := (node, charger)],
         registry := s.registry[(node, charger) := conn])
    case Disconnect(conn) =>
      var a := s.owner[conn];
      if a in s.registry && s.registry[a] == conn then s.(registry := s.registry - {a}) else s
    case Socket(conn, event) => s.(conns := s.conns[conn := s.conns[conn] + [event]])
    case Issue(cmd, order, online) =>
      s.(orders := s.orders[cmd := order],
         senders := s.senders[cmd := if online then Waiting else Refused],
         log := s.log[cmd := if online then Outcome(Pending, None) else OFFLINE])
    case Deliver(cmd, node, id) =>
      var a := Addressee(s, cmd, node);
      if a in s.registry then PutOnSocket(s, cmd, s.registry[a], id)
      else s.(bridges := s.bridges[cmd := NOT_CONNECTED])
    case Respond(cmd) =>
      var c := s.bridges[cmd].call;
      s.(bridges := s.bridges[cmd := Answered(Some(c), Answer(L.Run(s.conns[c.conn]).ended[c.id]))])
    case Receive(cmd) =>
      s.(senders := s.senders[cmd := Received(Read(s.orders[cmd], Body(s.bridges[cmd].wire)))])
    case Lose(cmd, reply) => s.(senders := s.senders[cmd := Received(Read(s.orders[cmd], reply))])
    case Raise(cmd) => s.(senders := s.senders[cmd := Raised])
    case Mark(cmd) =>
      var o := s.senders[cmd].outcome;
      s.(senders := s.senders[cmd := Returned(o)], log := s.log[cmd := o])
  }

  function Run(h: seq<Event>): State {
    if h == [] then EMPTY else Step(Run(h[..|h| - 1]), h[|h| - 1])
  }

  // ----- what holds of one command in every run -----

  /** The frame this command put on a connection of the charger it was delivered to. */
  ghost predicate CallMade(s: State, cmd: CommandId, c: Call) {
    && cmd in s.orders && c.conn in s.conns && c.conn in s.owner
    && var o := s.orders[cmd];
    && c.id in L.Run(s.conns[c.conn]).sent
    && L.Run(s.conns[c.conn]).sent[c.id] == L.CallFrame(c.id, o.kind, o.payload)
    && Subscribes(s.owner[c.conn].0, Subject(o.node, o.charger))
    && s.owner[c.conn].1 == LastToken(Subject(o.node, o.charger))
  }

  ghost predicate BridgeOk(s: State, cmd: CommandId) {
    cmd in s.bridges ==>
      match s.bridges[cmd]
      case Calling(c) => CallMade(s, cmd, c)
      case Answered(None, w) => w == Wire("rejected", Some(Reason("charger not connected on this node")))
      case Answered(Some(c), w) =>
        && CallMade(s, cmd, c) && c.id in L.Run(s.conns[c.conn]).ended
        && w == Answer(L.Run(s.conns[c.conn]).ended[c.id])
  }

  /** An outcome the sender holds is final, and an acceptance was answered by the node. */
  ghost predicate OutcomeOk(s: State, cmd: CommandId, o: Outcome) {
    && o.status != Pending
    && (o.status == Accepted ==>
          cmd in s.bridges && s.bridges[cmd].Answered? && s.bridges[cmd].wire == Wire("accepted", o.result))
  }

  ghost predicate SenderOk(s: State, cmd: CommandId) {
    && (cmd in s.senders <==> cmd in s.orders) && (cmd in s.log <==> cmd in s.orders)
    && (cmd in s.bridges ==> cmd in s.orders)
    && (cmd in s.senders ==>
          match s.senders[cmd]
          case Refused => s.log[cmd].status == Rejected
          case Waiting => s.log[cmd].status == Pending
          case Raised => s.log[cmd].status == Pending
          case Received(o) => s.log[cmd].status == Pending && OutcomeOk(s, cmd, o)
          case Returned(o) => s.log[cmd] == o && OutcomeOk(s, cmd, o))
  }

  ghost predicate RegistryOk(s: State) {
    && s.owner.Keys == s.conns.Keys
    && forall a | a in s.registry :: s.registry[a] in s.owner && s.owner[s.registry[a]] == a
  }

  lemma ConnectRegistry(s: State, e: Event)
    requires RegistryOk(s) && e.Connect?
    ensures RegistryOk(Step(s, e))
  {
    if Enabled(s, e) {
      assert forall a | a in s.registry :: s.registry[a] != e.conn;
    }
  }

  /** Apart from connecting and disconnecting, no event touches the registry or opens a connection. */
  lemma RegistryUntouched(s: State, e: Event)
    requires RegistryOk(s) && !e.Connect? && !e.Disconnect?
    ensures var s' := Step(s, e);
            s'.registry == s.registry && s'.owner == s.owner && s'.conns.Keys == s.conns.Keys
  {
  }

  lemma RegistryStep(s: State, e: Event)
    requires RegistryOk(s)
    ensures RegistryOk(Step(s, e))
  {
    if e.Connect? {
      ConnectRegistry(s, e);
    } else if !e.Disconnect? {
      RegistryUntouched(s, e);
    }
  }

  lemma {:induction false} RegistryReachable(h: seq<Event>)
    ensures RegistryOk(Run(h))
  {
    if h == [] {
    } else {
      RegistryReachable(h[..|h| - 1]);
      RegistryStep(Run(h[..|h| - 1]), h[|h| - 1]);
    }
  }

  /** Events of sockets do not touch a command's own records. */
  lemma SenderSocket(s: State, e: Event, cmd: CommandId)
    requires SenderOk(s, cmd) && (e.Connect? || e.Disconnect? || e.Socket?)
    ensures SenderOk(Step(s, e), cmd)
  {
  }

  /** Nor do events of other commands. */
  lemma SenderOther(s: State, e: Event, cmd: CommandId)
    requires SenderOk(s, cmd) && (e.Issue? || e.Receive? || e.Lose? || e.Raise? || e.Mark?) && e.cmd != cmd
    ensures SenderOk(Step(s, e), cmd)
  {
  }

  /** A delivery changes no sender's records and no other command's bridge. */
  lemma DeliverFrames(s: State, e: Event, cmd: CommandId)
    requires e.Deliver? && e.cmd != cmd && Enabled(s, e)
    ensures SameRecords(s, Step(s, e), cmd)
  {
  }

  ghost predicate SameRecords(s: State, s': State, cmd: CommandId) {
    && s'.senders == s.senders && s'.log == s.log && s'.orders == s.orders
    && (cmd in s'.bridges <==> cmd in s.bridges)
    && (cmd in s.bridges ==> s'.bridges[cmd] == s.bridges[cmd])
  }

  lemma SenderFramed(s: State, s': State, cmd: CommandId)
    requires SenderOk(s, cmd) && SameRecords(s, s', cmd)
    ensures SenderOk(s', cmd)
  {
  }

  lemma SenderOtherResponded(s: State, e: Event, cmd: CommandId)
    requires SenderOk(s, cmd) && e.Respond? && e.cmd != cmd
    ensures SenderOk(Step(s, e), cmd)
  {
  }

  lemma SenderBridged(s: State, e: Event)
    requires (e.Deliver? || e.Respond?) && SenderOk(s, e.cmd)
    ensures SenderOk(Step(s, e), e.cmd)
  {
  }

  lemma SenderOwn(s: State, e: Event)
    requires (e.Issue? || e.Receive? || e.Lose? || e.Raise? || e.Mark?) && SenderOk(s, e.cmd)
    ensures SenderOk(Step(s, e), e.cmd)
  {
  }

  lemma SenderStep(s: State, e: Event, cmd: CommandId)
    requires SenderOk(s, cmd)
    ensures SenderOk(Step(s, e), cmd)
  {
    if e.Connect? || e.Disconnect? || e.Socket? {
      SenderSocket(s, e, cmd);
    } else if e.Deliver? || e.Respond? {
      if e.cmd == cmd {
        SenderBridged(s, e);
      } else if !Enabled(s, e) {
        assert Step(s, e) == s;
      } else if e.Deliver? {
        DeliverFrames(s, e, cmd);
        SenderFramed(s, Step(s, e), cmd);
      } else {
        SenderOtherResponded(s, e, cmd);
      }
    } else if e.cmd == cmd {
      SenderOwn(s, e);
    } else {
      SenderOther(s, e, cmd);
    }
  }

  lemma {:induction false} SenderReachable(h: seq<Event>, cmd: CommandId)
    ensures SenderOk(Run(h), cmd)
  {
    if h == [] {
    } else {
      SenderReachable(h[..|h| - 1], cmd);
      SenderStep(Run(h[..|h| - 1]), h[|h| - 1], cmd);
    }
  }

  /** A connection's history is extended by at most one event, and its owner and the orders stay. */
  lemma HistoriesGrow(s: State, e: Event, conn: ConnId)
    requires RegistryOk(s) && conn in s.conns
    ensures var s' := Step(s, e);
            && conn in s'.conns && conn in s'.owner && s'.owner[conn] == s.owner[conn]
            && |s.conns[conn]| <= |s'.conns[conn]| <= |s.conns[conn]| + 1 && s.conns[conn] <= s'.conns[conn]
  {
  }

  lemma OrdersStay(s: State, e: Event, cmd: CommandId)
    requires cmd in s.orders
    ensures cmd in Step(s, e).orders && Step(s, e).orders[cmd] == s.orders[cmd]
  {
  }

  /** So what a command did on a connection stays done. */
  lemma CallStays(s: State, e: Event, cmd: CommandId, c: Call)
    requires RegistryOk(s) && CallMade(s, cmd, c)
    ensures CallMade(Step(s, e), cmd, c)
    ensures c.id in L.Run(s.conns[c.conn]).ended ==>
              && c.id in L.Run(Step(s, e).conns[c.conn]).ended
              && L.Run(Step(s, e).conns[c.conn]).ended[c.id] == L.Run(s.conns[c.conn]).ended[c.id]
  {
    HistoriesGrow(s, e, c.conn);
    OrdersStay(s, e, cmd);
    var h, h' := s.conns[c.conn], Step(s, e).conns[c.conn];
    if |h'| > |h| {
      assert h' == h + [h'[|h|]];
      L.EndsAreFinal(h, h'[|h|], c.id);
    } else {
      assert h' == h;
    }
  }

  lemma DeliverMakesCall(s: State, e: Event)
    requires RegistryOk(s) && e.Deliver? && Enabled(s, e) && Addressee(s, e.cmd, e.node) in s.registry
    ensures CallMade(Step(s, e), e.cmd, Step(s, e).bridges[e.cmd].call)
  {
    var conn := s.registry[Addressee(s, e.cmd, e.node)];
    var h := s.conns[conn];
    var frame := L.CallFrame(e.id, s.orders[e.cmd].kind, s.orders[e.cmd].payload);
    assert (h + [L.Send(frame)])[..|h|] == h;
  }

  /** A bridge that has a state keeps it, except that a call may be answered. */
  lemma BridgeMoves(s: State, e: Event, cmd: CommandId)
    requires cmd in s.bridges
    ensures cmd in Step(s, e).bridges
    ensures Step(s, e).bridges[cmd] != s.bridges[cmd] ==>
              && e == Respond(cmd) && Enabled(s, e) && s.bridges[cmd].Calling?
              && var c := s.bridges[cmd].call;
              Step(s, e).bridges[cmd] == Answered(Some(c), Answer(L.Run(s.conns[c.conn]).ended[c.id]))
  {
  }

  lemma BridgeStarts(s: State, e: Event, cmd: CommandId)
    requires RegistryOk(s) && cmd !in s.bridges
    ensures BridgeOk(Step(s, e), cmd)
  {
    if cmd in Step(s, e).bridges && Addressee(s, cmd, e.node) in s.registry {
      DeliverMakesCall(s, e);
    }
  }

  lemma BridgeStep(s: State, e: Event, cmd: CommandId)
    requires RegistryOk(s) && BridgeOk(s, cmd)
    ensures BridgeOk(Step(s, e), cmd)
  {
    if cmd !in s.bridges {
      BridgeStarts(s, e, cmd);
    } else {
      BridgeMoves(s, e, cmd);
      match s.bridges[cmd]
      case Calling(c) => CallStays(s, e, cmd, c);
      case Answered(Some(c), _) => CallStays(s, e, cmd, c);
      case Answered(None, _) =>
    }
  }

  lemma {:induction false} BridgeReachable(h: seq<Event>, cmd: CommandId)
    ensures BridgeOk(Run(h), cmd)
  {
    if h == [] {
    } else {
      BridgeReachable(h[..|h| - 1], cmd);
      RegistryReachable(h[..|h| - 1]);
      BridgeStep(Run(h[..|h| - 1]), h[|h| - 1], cmd);
    }
  }

  /**
   A command logged accepted had exactly its own call answered: the frame with
   its type and payload went out on one connection, and the first reply to that
   frame's id was a CallResult carrying the logged result.
   */
  lemma AcceptedWasAnswered(h: seq<Event>, cmd: CommandId)
    requires var s := Run(h); cmd in s.log && s.log[cmd].status == Accepted
    ensures var s := Run(h);
            && cmd in s.bridges && s.bridges[cmd].Answered? && s.bridges[cmd].made.Some?
            && CallMade(s, cmd, s.bridges[cmd].made.value)
            && (var c := s.bridges[cmd].made.value;
                && L.FirstReply(s.conns[c.conn], c.id).Some?
                && L.FirstReply(s.conns[c.conn], c.id).value.Result?
                && s.log[cmd].result == Some(Payload(L.FirstReply(s.conns[c.conn], c.id).value.payload)))
  {
    var s := Run(h);
    SenderReachable(h, cmd);
    BridgeReachable(h, cmd);
    var c := s.bridges[cmd].made.value;
    L.EndsOnceWithItsOwnReply(s.conns[c.conn], c.id);
  }

  /** ... and with a dot-free charger id that connection belongs to the very charger and node addressed. */
  lemma AcceptedByItsCharger(h: seq<Event>, cmd: CommandId)
    requires var s := Run(h);
             && cmd in s.log && s.log[cmd].status == Accepted
             && cmd in s.orders && '.' !in s.orders[cmd].charger
    ensures var s := Run(h);
            && cmd in s.bridges && s.bridges[cmd].Answered? && s.bridges[cmd].made.Some?
            && s.bridges[cmd].made.value.conn in s.owner
            && s.owner[s.bridges[cmd].made.value.conn] == (s.orders[cmd].node, s.orders[cmd].charger)
  {
    AcceptedWasAnswered(h, cmd);
    var s := Run(h);
    var conn := s.bridges[cmd].made.value.conn;
    CommandsReachTheirCharger(s.orders[cmd].node, s.owner[conn].0, s.orders[cmd].charger);
  }

  /**
   The log agrees with what the caller was told. A command is logged pending exactly while
   it is awaited, and for good if the transport raised: nothing marks it then.
   */
  lemma LogAgreesWithCaller(h: seq<Event>, cmd: CommandId)
    requires cmd in Run(h).senders
    ensures var s := Run(h);
            && cmd in s.log
            && (s.senders[cmd].Returned? ==> s.log[cmd] == s.senders[cmd].outcome)
            && (s.senders[cmd].Refused? ==> s.log[cmd].status == Rejected)
            && (s.log[cmd].status == Pending <==> s.senders[cmd].Waiting? || s.senders[cmd].Received? || s.senders[cmd].Raised?)
  {
    SenderReachable(h, cmd);
  }

  lemma RaisedStep(s: State, e: Event, cmd: CommandId)
    requires SenderOk(s, cmd) && cmd in s.senders && s.senders[cmd].Raised?
    ensures cmd in Step(s, e).senders && Step(s, e).senders[cmd].Raised?
  {
  }

  /** A command whose transport raised stays pending, whatever follows. */
  lemma {:induction false} RaisedStaysPending(h: seq<Event>, g: seq<Event>, cmd: CommandId)
    requires cmd in Run(h).senders && Run(h).senders[cmd].Raised?
    ensures cmd in Run(h + g).senders && Run(h + g).senders[cmd].Raised?
    ensures cmd in Run(h + g).log && Run(h + g).log[cmd].status == Pending
  {
    if g == [] {
      assert h + g == h;
    } else {
      var front := g[..|g| - 1];
      RaisedStaysPending(h, front, cmd);
      SenderReachable(h + front, cmd);
      assert (h + g)[..|h + g| - 1] == h + front;
      RaisedStep(Run(h + front), g[|g| - 1], cmd);
    }
    SenderReachable(h + g, cmd);
  }

  // ----- the story of one command, read off the history -----

  /** How the command was issued. */
  function IssueOf(h: seq<Event>, cmd: CommandId): Option<Event> {
    if h == [] then None else
      var p, e := h[..|h| - 1], h[|h| - 1];
      if IssueOf(p, cmd).Some? then IssueOf(p, cmd)
      else if e.Issue? && e.cmd == cmd then Some(e)
      else None
  }

  predicate EndsWait(e: Event, cmd: CommandId) {
    (e.Receive? || e.Lose? || e.Raise?) && e.cmd == cmd
  }

  /** What ended the wait for the transport. */
  function EndOf(h: seq<Event>, cmd: CommandId): Option<Event> {
    if h == [] then None else
      var p, e := h[..|h| - 1], h[|h| - 1];
      if EndOf(p, cmd).Some? then EndOf(p, cmd)
      else if EndsWait(e, cmd) && Enabled(Run(p), e) then Some(e)
      else None
  }

  /** The log was marked with the outcome. */
  predicate MarkedIn(h: seq<Event>, cmd: CommandId) {
    if h == [] then false else
      var p, e := h[..|h| - 1], h[|h| - 1];
      MarkedIn(p, cmd) || (e == Mark(cmd) && Enabled(Run(p), e))
  }

  const PENDING := Outcome(Pending, None)

  /** The outcome the sender holds, by what ended its wait. */
  ghost predicate TookIn(s: State, cmd: CommandId, end: Event, o: Outcome)
    requires cmd in s.orders
  {
    if end.Lose? then o == Read(s.orders[cmd], end.reply)
    else end.Receive? && cmd in s.bridges && s.bridges[cmd].Answered? && o == Read(s.orders[cmd], Body(s.bridges[cmd].wire))
  }

  ghost predicate Story(s: State, cmd: CommandId, issue: Option<Event>, end: Option<Event>, marked: bool) {
    if issue.None? then cmd !in s.orders && cmd !in s.senders && cmd !in s.log && end.None? && !marked
    else
      && issue.value.Issue? && cmd in s.orders && s.orders[cmd] == issue.value.order && cmd in s.senders && cmd in s.log
      && (issue.value.online ==> s.senders[cmd] != Refused)
      && if !issue.value.online then
           s.senders[cmd] == Refused && s.log[cmd] == Outcome(Rejected, Some(Reason("charger offline"))) && end.None? && !marked
         else if end.None? then s.senders[cmd] == Waiting && s.log[cmd] == PENDING && !marked
         else if end.value.Raise? then s.senders[cmd] == Raised && s.log[cmd] == PENDING && !marked
         else
           && (s.senders[cmd].Received? || s.senders[cmd].Returned?) && (s.senders[cmd].Returned? <==> marked)
           && s.log[cmd] == (if marked then s.senders[cmd].outcome else PENDING)
           && TookIn(s, cmd, end.value, s.senders[cmd].outcome)
  }

  /** The command's records are the same, and an answer its node gave still stands. */
  ghost predicate RecordsKept(s: State, s': State, cmd: CommandId) {
    && (cmd in s'.orders <==> cmd in s.orders) && (cmd in s.orders ==> s'.orders[cmd] == s.orders[cmd])
    && (cmd in s'.senders <==> cmd in s.senders) && (cmd in s.senders ==> s'.senders[cmd] == s.senders[cmd])
    && (cmd in s'.log <==> cmd in s.log) && (cmd in s.log ==> s'.log[cmd] == s.log[cmd])
    && (cmd in s.bridges && s.bridges[cmd].Answered? ==> cmd in s'.bridges && s'.bridges[cmd] == s.bridges[cmd])
  }

  lemma StoryFramed(s: State, s': State, cmd: CommandId, issue: Option<Event>, end: Option<Event>, marked: bool)
    requires Story(s, cmd, issue, end, marked) && RecordsKept(s, s', cmd)
    ensures Story(s', cmd, issue, end, marked)
  {
  }

  lemma RecordsKeptElsewhere(s: State, e: Event, cmd: CommandId)
    requires Elsewhere(e)
    ensures RecordsKept(s, Step(s, e), cmd)
  {
    if cmd in s.bridges {
      BridgeMoves(s, e, cmd);
    }
  }

  lemma RecordsKeptOther(s: State, e: Event, cmd: CommandId)
    requires !Elsewhere(e) && e.cmd != cmd
    ensures RecordsKept(s, Step(s, e), cmd)
  {
  }

  lemma StoryIssue(s: State, e: Event, cmd: CommandId, issue: Option<Event>, end: Option<Event>, marked: bool)
    requires Story(s, cmd, issue, end, marked) && e.Issue? && e.cmd == cmd
    ensures Story(Step(s, e), cmd, if issue.Some? then issue else Some(e), end, marked)
  {
  }

  lemma StoryEnd(s: State, e: Event, cmd: CommandId, issue: Option<Event>, end: Option<Event>, marked: bool)
    requires Story(s, cmd, issue, end, marked) && EndsWait(e, cmd)
    ensures Story(Step(s, e), cmd, issue, if end.Some? then end else if Enabled(s, e) then Some(e) else None, marked)
  {
  }

  lemma StoryMark(s: State, e: Event, cmd: CommandId, issue: Option<Event>, end: Option<Event>, marked: bool)
    requires Story(s, cmd, issue, end, marked) && e == Mark(cmd)
    ensures Story(Step(s, e), cmd, issue, end, marked || Enabled(s, e))
  {
  }

  /** Order, sender and log record of a command are what its issue, the end of its wait and its mark make of them. */
  lemma {:induction false} StoryReplay(h: seq<Event>, cmd: CommandId)
    ensures Story(Run(h), cmd, IssueOf(h, cmd), EndOf(h, cmd), MarkedIn(h, cmd))
  {
    if h == [] {
    } else {
      var p, e := h[..|h| - 1], h[|h| - 1];
      StoryReplay(p, cmd);
      if Elsewhere(e) {
        RecordsKeptElsewhere(Run(p), e, cmd);
        StoryFramed(Run(p), Run(h), cmd, IssueOf(p, cmd), EndOf(p, cmd), MarkedIn(p, cmd));
      } else if e.cmd != cmd {
        RecordsKeptOther(Run(p), e, cmd);
        StoryFramed(Run(p), Run(h), cmd, IssueOf(p, cmd), EndOf(p, cmd), MarkedIn(p, cmd));
      } else if e.Issue? {
        StoryIssue(Run(p), e, cmd, IssueOf(p, cmd), EndOf(p, cmd), MarkedIn(p, cmd));
      } else if e.Mark? {
        StoryMark(Run(p), e, cmd, IssueOf(p, cmd), EndOf(p, cmd), MarkedIn(p, cmd));
      } else {
        StoryEnd(Run(p), e, cmd, IssueOf(p, cmd), EndOf(p, cmd), MarkedIn(p, cmd));
      }
    }
  }

  /** A command is refused, and logged as refused, if and only if it was issued to a charger that is not online. */
  lemma RefusedIffOffline(h: seq<Event>, cmd: CommandId)
    requires IssueOf(h, cmd).Some?
    ensures var s := Run(h);
            && cmd in s.orders && cmd in s.senders && cmd in s.log
            && IssueOf(h, cmd).value.Issue? && s.orders[cmd] == IssueOf(h, cmd).value.order
            && (s.senders[cmd].Refused? <==> !IssueOf(h, cmd).value.online)
            && (s.senders[cmd].Refused? ==> s.log[cmd] == Outcome(Rejected, Some(Reason("charger offline"))))
  {
    StoryReplay(h, cmd);
  }

  /** What the sender has, and what the log says once it is marked. */
  ghost predicate Told(s: State, cmd: CommandId, o: Outcome, marked: bool) {
    && cmd in s.senders && cmd in s.log
    && s.senders[cmd] == (if marked then Returned(o) else Received(o))
    && s.log[cmd] == (if marked then o else Outcome(Pending, None))
  }

  /** A request that gets no body is told by how it failed to. */
  lemma NoBodyIsTold(h: seq<Event>, cmd: CommandId)
    requires EndOf(h, cmd).Some? && EndOf(h, cmd).value.Lose?
    ensures var reply := EndOf(h, cmd).value.reply;
            && cmd in Run(h).orders && (reply.NoAnswer? || reply.NoResponders? || reply.Garbled?)
            && (reply.NoAnswer? ==> Told(Run(h), cmd, Outcome(TimedOut, Some(Reason(NO_ANSWER))), MarkedIn(h, cmd)))
            && (reply.NoResponders? ==>
                  Told(Run(h), cmd, Outcome(Rejected, Some(Reason(NobodyListens(Run(h).orders[cmd])))), MarkedIn(h, cmd)))
            && (reply.Garbled? ==> Told(Run(h), cmd, Outcome(Rejected, Some(Reason(GARBLED))), MarkedIn(h, cmd)))
  {
    StoryReplay(h, cmd);
    LosesWereBodiless(h, cmd);
  }

  lemma {:induction false} LosesWereBodiless(h: seq<Event>, cmd: CommandId)
    requires EndOf(h, cmd).Some? && EndOf(h, cmd).value.Lose?
    ensures !EndOf(h, cmd).value.reply.Body?
  {
    if EndOf(h[..|h| - 1], cmd).None? {
    } else {
      LosesWereBodiless(h[..|h| - 1], cmd);
    }
  }

  /** What a caller should be told, by what brought the call back and the first reply to it. */
  ghost predicate Fits(o: Outcome, back: L.Event, first: Option<L.Reply>) {
    && (forall p :: o == Outcome(Accepted, Some(Payload(p))) <==> back.Return? && first == Some(L.Result(p)))
    && (forall code, text :: o == Outcome(Rejected, Some(CallFailed(code, text))) <==> back.Return? && first == Some(L.Error(code, text)))
    && (o == Outcome(TimedOut, None) <==> back.GiveUp?)
    && (o == Outcome(Rejected, Some(Reason("internal error"))) <==> back.Break?)
  }

  lemma WordingFits(o: L.Outcome, back: L.Event, first: Option<L.Reply>)
    requires L.EndsAs(o, back, first) && (back.Return? || back.GiveUp? || back.Break?)
    ensures var w := Answer(o); Fits(Outcome(StatusOf(w.status), w.result), back, first)
  {
  }

  /**
   A command that took in its node's answer: told not connected if no call was made; otherwise
   accepted with the payload if and only if its call came back with that result, rejected with code and
   text if and only if it came back with that error, timed out if and only if its timer ended it, and
   an internal error if and only if its frame could not be written.
   */
  lemma AnswerIsTold(h: seq<Event>, cmd: CommandId)
    requires EndOf(h, cmd) == Some(Receive(cmd))
    ensures var s := Run(h);
            && cmd in s.bridges && s.bridges[cmd].Answered?
            && (s.bridges[cmd].made.None? ==>
                  Told(s, cmd, Outcome(Rejected, Some(Reason("charger not connected on this node"))), MarkedIn(h, cmd)))
            && (s.bridges[cmd].made.Some? ==>
                  var c := s.bridges[cmd].made.value;
                  && CallMade(s, cmd, c) && L.EndedBy(s.conns[c.conn], c.id).Some?
                  && exists o :: Told(s, cmd, o, MarkedIn(h, cmd))
                       && Fits(o, L.EndedBy(s.conns[c.conn], c.id).value, L.FirstReply(s.conns[c.conn], c.id)))
  {
    var s := Run(h);
    StoryReplay(h, cmd);
    BridgeReachable(h, cmd);
    assert Told(s, cmd, s.senders[cmd].outcome, MarkedIn(h, cmd));
    if s.bridges[cmd].made.Some? {
      var c := s.bridges[cmd].made.value;
      L.EndIsDecided(s.conns[c.conn], c.id);
      WordingFits(L.Run(s.conns[c.conn]).ended[c.id], L.EndedBy(s.conns[c.conn], c.id).value, L.FirstReply(s.conns[c.conn], c.id));
    }
  }

  // ----- where a command goes -----

  /** Connects and disconnects as moves of a registry per node and charger. */
  function Moves(h: seq<Event>): seq<L.Move<(string, string), ConnId>> {
    if h == [] then [] else
      var p, e := h[..|h| - 1], h[|h| - 1];
      Moves(p)
      + if !Enabled(Run(p), e) then []
        else if e.Connect? then [L.Register((e.node, e.charger), e.conn)]
        else if e.Disconnect? then [L.Unregister(Run(p).owner[e.conn], e.conn)]
        else []
  }

  lemma MoveStep(s: State, e: Event)
    ensures Step(s, e).registry ==
              if !Enabled(s, e) then s.registry
              else if e.Connect? then L.Apply(s.registry, L.Register((e.node, e.charger), e.conn))
              else if e.Disconnect? then L.Apply(s.registry, L.Unregister(s.owner[e.conn], e.conn))
              else s.registry
  {
  }

  /** Each node's registry follows its connects and disconnects. */
  lemma {:induction false} RegistryIsOfMoves(h: seq<Event>)
    ensures Run(h).registry == L.Registry(Moves(h))
  {
    if h == [] {
    } else {
      RegistryIsOfMoves(h[..|h| - 1]);
      MoveStep(Run(h[..|h| - 1]), h[|h| - 1]);
      var before, ms := Moves(h[..|h| - 1]), Moves(h);
      if |ms| > |before| {
        assert ms[..|ms| - 1] == before;
      } else {
        assert ms == before;
      }
    }
  }

  lemma DeliverStep(s: State, cmd: CommandId, node: string, id: L.Id)
    requires Enabled(s, Deliver(cmd, node, id))
    ensures var s' := Step(s, Deliver(cmd, node, id));
            var a := (node, LastToken(Subject(s.orders[cmd].node, s.orders[cmd].charger)));
            && cmd in s'.bridges
            && if a in s.registry then
                 var conn := s.registry[a];
                 && s'.bridges[cmd] == Calling(Call(conn, id)) && conn in s.conns && conn in s'.conns
                 && s'.conns[conn] == s.conns[conn] + [L.Send(L.CallFrame(id, s.orders[cmd].kind, s.orders[cmd].payload))]
               else s'.bridges[cmd] == Answered(None, Wire("rejected", Some(Reason("charger not connected on this node"))))
  {
  }

  /** The charger's latest standing connection at the node. */
  ghost predicate Standing(h: seq<Event>, a: (string, string), conn: ConnId) {
    exists i :: L.HoldsSince(Moves(h), a, conn, i)
  }

  lemma StandingIsRegistered(h: seq<Event>, a: (string, string), conn: ConnId)
    ensures a in Run(h).registry && Run(h).registry[a] == conn <==> Standing(h, a, conn)
  {
    RegistryIsOfMoves(h);
    L.RegistryIsLatest(Moves(h), a, conn);
  }

  /**
   A delivered command is put, with its type and payload, on the connection that is the latest
   standing one of the charger read from the subject, at the node reached; without one the node answers at once.
   */
  lemma DeliverDecides(h: seq<Event>, cmd: CommandId, node: string, id: L.Id, conn: ConnId)
    requires Enabled(Run(h), Deliver(cmd, node, id))
    ensures var s, s' := Run(h), Step(Run(h), Deliver(cmd, node, id));
            var a := (node, LastToken(Subject(s.orders[cmd].node, s.orders[cmd].charger)));
            && cmd in s'.bridges
            && (s'.bridges[cmd] == Calling(Call(conn, id)) <==> Standing(h, a, conn))
            && (Standing(h, a, conn) ==>
                  && conn in s.conns && conn in s'.conns
                  && s'.conns[conn] == s.conns[conn] + [L.Send(L.CallFrame(id, s.orders[cmd].kind, s.orders[cmd].payload))])
  {
    var s := Run(h);
    DeliverStep(s, cmd, node, id);
    StandingIsRegistered(h, (node, LastToken(Subject(s.orders[cmd].node, s.orders[cmd].charger))), conn);
  }

  function CallOf(s: State, cmd: CommandId): Option<Call> {
    if cmd !in s.bridges then None
    else match s.bridges[cmd]
      case Calling(c) => Some(c)
      case Answered(made, _) => made
  }

  lemma CallOfStep(s: State, e: Event, a: CommandId)
    ensures CallOf(s, a).Some? ==> CallOf(Step(s, e), a) == CallOf(s, a)
    ensures CallOf(Step(s, e), a).Some? && CallOf(s, a).None? ==> e.Deliver? && e.cmd == a && Enabled(s, e)
  {
  }

  /** A call a step adds to a command has an id no earlier call of that connection had. */
  lemma NewCallIsFresh(s: State, e: Event, a: CommandId, c: Call)
    requires e.Deliver? && e.cmd == a && Enabled(s, e) && CallOf(s, a).None?
    requires c.conn in s.conns && c.id in L.Run(s.conns[c.conn]).sent
    ensures CallOf(Step(s, e), a) != Some(c)
  {
  }

  /** No two commands ever share a call. */
  lemma {:induction false} CallsAreNotShared(h: seq<Event>, a: CommandId, b: CommandId)
    requires a != b && CallOf(Run(h), a).Some? && CallOf(Run(h), b).Some?
    ensures CallOf(Run(h), a) != CallOf(Run(h), b)
  {
    var p, e := h[..|h| - 1], h[|h| - 1];
    var s := Run(p);
    CallOfStep(s, e, a);
    CallOfStep(s, e, b);
    if CallOf(s, a).None? {
      BridgeReachable(p, b);
      NewCallIsFresh(s, e, a, CallOf(s, b).value);
    } else if CallOf(s, b).None? {
      BridgeReachable(p, a);
      NewCallIsFresh(s, e, b, CallOf(s, a).value);
    } else {
      CallsAreNotShared(p, a, b);
    }
  }

  // ----- the service that issues commands: one method per side of the awaited transport -----

  datatype LogRecord = LogRecord(
    charger: string, tenant: nat, kind: string, requestedAt: int, respondedAt: Option<int>, outcome: Outcome)

  lemma RunSnoc(h: seq<Event>, e: Event)
    ensures Run(h + [e]) == Step(Run(h), e)
  {
    assert (h + [e])[..|h|] == h;
  }

  /** The log holds exactly the commands the chain has logged, each with the outcome the chain gives it. */
  ghost predicate LogOk(log: map<CommandId, LogRecord>, logged: map<CommandId, Outcome>) {
    log.Keys == logged.Keys && forall c | c in log :: log[c].outcome == logged[c]
  }

  /** What happens at sockets, nodes and the broker does not touch the log. */
  predicate Elsewhere(e: Event) {
    e.Connect? || e.Disconnect? || e.Socket? || e.Deliver? || e.Respond?
  }

  lemma LogUntouched(s: State, e: Event)
    requires Elsewhere(e)
    ensures Step(s, e).log == s.log
  {
  }

  lemma Issued(s: State, cmd: CommandId, order: Order, online: bool)
    requires cmd !in s.orders
    ensures Step(s, Issue(cmd, order, online)).log == s.log[cmd := if online then Outcome(Pending, None) else OFFLINE]
  {
  }

  lemma TakesIn(s: State, cmd: CommandId, reply: Reply)
    requires cmd in s.orders && cmd in s.senders && s.senders[cmd].Waiting?
    requires reply.Body? ==> cmd in s.bridges && s.bridges[cmd].Answered? && s.bridges[cmd].wire == reply.wire
    ensures Step(s, TakeIn(cmd, reply)) == s.(senders := s.senders[cmd := Received(Read(s.orders[cmd], reply))])
  {
  }

  lemma Marks(s: State, cmd: CommandId)
    requires cmd in s.senders && s.senders[cmd].Received?
    ensures Step(s, Mark(cmd)).log == s.log[cmd := s.senders[cmd].outcome]
  {
  }

  /** The sender takes in a reply and marks the command: together they log what the reply says. */
  lemma FinishIsLogged(h: seq<Event>, cmd: CommandId, reply: Reply)
    requires var s := Run(h);
             && cmd in s.orders && cmd in s.senders && s.senders[cmd].Waiting?
             && (reply.Body? ==> cmd in s.bridges && s.bridges[cmd].Answered? && s.bridges[cmd].wire == reply.wire)
    ensures Run(h + [TakeIn(cmd, reply)] + [Mark(cmd)]).log == Run(h).log[cmd := Read(Run(h).orders[cmd], reply)]
  {
    RunSnoc(h, TakeIn(cmd, reply));
    RunSnoc(h + [TakeIn(cmd, reply)], Mark(cmd));
    TakesIn(Run(h), cmd, reply);
    Marks(Run(h + [TakeIn(cmd, reply)]), cmd);
  }

  function TakeIn(cmd: CommandId, reply: Reply): Event {
    if reply.Body? then Receive(cmd) else Lose(cmd, reply)
  }

  lemma RaisesLogKept(s: State, cmd: CommandId)
    ensures Step(s, Raise(cmd)).log == s.log
  {
  }

  /** Issued to a charger that is online, then an error of the transport: logged pending, with nobody waiting. */
  lemma RaiseLeavesPending(cmd: CommandId, order: Order)
    ensures var s := Run([] + [Issue(cmd, order, true)] + [Raise(cmd)]);
            cmd in s.senders && s.senders[cmd].Raised? && cmd in s.log && s.log[cmd].status == Pending
  {
    RunSnoc([], Issue(cmd, order, true));
    RunSnoc([] + [Issue(cmd, order, true)], Raise(cmd));
  }

  class RemoteCommandService {
    var log: map<CommandId, LogRecord>
    ghost var history: seq<Event>

    ghost predicate Valid()
      reads this
    {
      LogOk(log, Run(history).log)
    }

    constructor ()
      ensures Valid() && history == []
    {
      log, history := map[], [];
    }

    /** Whatever happens in the rest of the chain while commands are awaited. */
    ghost method Meanwhile(e: Event)
      requires Valid() && Elsewhere(e)
      modifies this`history
      ensures Valid() && history == old(history) + [e]
    {
      RunSnoc(history, e);
      LogUntouched(Run(history), e);
      history := history + [e];
    }

    method Create(cmd: CommandId, tenant: nat, order: Order, now: int)
      modifies this`log
      ensures log == old(log)[cmd := LogRecord(order.charger, tenant, order.kind, now, None, Outcome(Pending, None))]
    {
      log := log[cmd := LogRecord(order.charger, tenant, order.kind, now, None, Outcome(Pending, None))];
    }

    method MarkResponded(cmd: CommandId, outcome: Outcome, now: int)
      requires cmd in log
      modifies this`log
      ensures log == old(log)[cmd := old(log)[cmd].(outcome := outcome, respondedAt := Some(now))]
    {
      log := log[cmd := log[cmd].(outcome := outcome, respondedAt := Some(now))];
    }

    /** The transport's side: every reply, or lack of one, becomes a final outcome. */
    method Send(order: Order, reply: Reply) returns (o: Outcome)
      ensures o == Read(order, reply)
    {
      if reply.NoAnswer? {
        return Outcome(TimedOut, Some(Reason(NO_ANSWER)));
      } else if reply.NoResponders? {
        return Outcome(Rejected, Some(Reason(NobodyListens(order))));
      } else if reply.Garbled? {
        return Outcome(Rejected, Some(Reason(GARBLED)));
      }
      var statuses := map["accepted" := Accepted, "rejected" := Rejected, "timed_out" := TimedOut];
      var status := reply.wire.status;
      o := Outcome(if status in statuses then statuses[status] else Rejected, reply.wire.result);
    }

    /** Up to the transport; false stands for the error raised when the charger is offline. */
    method BeginCommand(cmd: CommandId, tenant: nat, order: Order, online: bool, now: int) returns (sent: bool)
      requires Valid() && cmd !in log
      modifies this
      ensures Valid() && history == old(history) + [Issue(cmd, order, online)]
      ensures sent <==> online
      ensures log == old(log)[cmd := if online
                                     then LogRecord(order.charger, tenant, order.kind, now, None, Outcome(Pending, None))
                                     else LogRecord(order.charger, tenant, order.kind, now, Some(now), OFFLINE)]
    {
      SenderReachable(history, cmd);
      Issued(Run(history), cmd, order, online);
      RunSnoc(history, Issue(cmd, order, online));
      Create(cmd, tenant, order, now);
      if !online {
        MarkResponded(cmd, OFFLINE, now);
      }
      sent := online;
      history := history + [Issue(cmd, order, online)];
    }

    /** From the transport's reply on: the caller is told what is logged. */
    method FinishCommand(cmd: CommandId, order: Order, reply: Reply, now: int) returns (o: Outcome)
      requires Valid() && cmd in Run(history).senders && Run(history).senders[cmd].Waiting?
      requires cmd in Run(history).orders && Run(history).orders[cmd] == order
      requires reply.Body? ==> var bs := Run(history).bridges; cmd in bs && bs[cmd].Answered? && bs[cmd].wire == reply.wire
      modifies this
      ensures Valid() && history == old(history) + [TakeIn(cmd, reply)] + [Mark(cmd)]
      ensures cmd in old(log) && o == Read(order, reply)
      ensures log == old(log)[cmd := old(log)[cmd].(outcome := o, respondedAt := Some(now))]
    {
      SenderReachable(history, cmd);
      FinishIsLogged(history, cmd, reply);
      o := Send(order, reply);
      MarkResponded(cmd, o, now);
      history := history + [TakeIn(cmd, reply)] + [Mark(cmd)];
    }

    /** The transport raised, being unconnected or handed a body that is no object: the record is left as it is. */
    ghost method LeaveCommand(cmd: CommandId)
      requires Valid() && cmd in Run(history).senders && Run(history).senders[cmd].Waiting?
      modifies this`history
      ensures Valid() && history == old(history) + [Raise(cmd)]
      ensures cmd in log && log[cmd].outcome.status == Pending
    {
      SenderReachable(history, cmd);
      RunSnoc(history, Raise(cmd));
      RaisesLogKept(Run(history), cmd);
      history := history + [Raise(cmd)];
    }
  }
}
