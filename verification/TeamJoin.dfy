/**
 Team-invite redemption: many `redeem` calls interleave on shared invites.
 Every call is a task; each event below is what one task does between two
 points where another task may run. The check of `used_count` and its increment
 are separate events, so nothing here relies on the event loop running them
 without interruption: the per-code lock alone has to carry the proof.
 */
module TeamJoin {
  import opened Seqs
  import RateLimiter

  type Uuid = nat

  datatype Config = Config(maxAttempts: int, windowSeconds: real)

  datatype Invite = Invite(teamId: Uuid, role: string, maxUses: int, usedCount: int, expiresAt: int)

  datatype Membership = Membership(driver: Uuid, teamId: Uuid, role: string)

  datatype Request = Request(driver: Uuid, code: string, requester: string, now: int)

  datatype Refusal = RateLimited | UnknownCode | Expired | Full

  /** Where a redeem call stands. Holding and Passed are inside the critical section. */
  datatype Task =
    | Admitted(rq: Request)
    | Waiting(rq: Request, grant: Membership)
    | Holding(rq: Request, grant: Membership)
    | Passed(rq: Request, grant: Membership)
    | Won(rq: Request, grant: Membership)
    | Joined(rq: Request, grant: Membership)
    | Refused(rq: Request, reason: Refusal)

  /** An invite's use count as it was stored, with the winners and the refusals its code had by then. */
  datatype Stored = Stored(used: int, winners: nat, refusals: nat)

  datatype State = State(
    invites: map<string, Invite>,
    locks: map<string, nat>,
    tasks: seq<Task>,
    memberships: seq<Membership>,
    limiter: RateLimiter.Windows,
    initial: map<string, Stored>)

  datatype Event =
    | Add(code: string, invite: Invite)
    | Arrive(rq: Request, clock: real)
    | Lookup(task: nat)
    | Acquire(task: nat)
    | Check(task: nat)
    | Commit(task: nat)
    | Record(task: nat)

  const EMPTY := State(map[], map[], [], [], map[], map[])

  function LimiterCall(cfg: Config, rq: Request, clock: real): RateLimiter.Call {
    RateLimiter.Call("team-join:" + rq.requester, clock, cfg.maxAttempts, cfg.windowSeconds)
  }

  /** No task is between the check and the increment, which the store runs without suspending. */
  predicate Quiet(s: State, code: string) {
    forall i | 0 <= i < |s.tasks| :: !(s.tasks[i].Passed? && s.tasks[i].rq.code == code)
  }

  /** An invite may be stored over another of the same code. */
  predicate Enabled(s: State, e: Event) {
    match e
    case Add(code, _) => Quiet(s, code)
    case Arrive(_, _) => true
    case Lookup(i) => i < |s.tasks| && s.tasks[i].Admitted?
    case Acquire(i) => i < |s.tasks| && s.tasks[i].Waiting? && s.tasks[i].rq.code !in s.locks
    case Check(i) => i < |s.tasks| && s.tasks[i].Holding?
    case Commit(i) => i < |s.tasks| && s.tasks[i].Passed? && s.tasks[i].rq.code in s.invites
    case Record(i) => i < |s.tasks| && s.tasks[i].Won?
  }

  function LookedUp(s: State, rq: Request): Task {
    if rq.code !in s.invites then Refused(rq, UnknownCode)
    else if s.invites[rq.code].expiresAt <= rq.now then Refused(rq, Expired)
    else Waiting(rq, Membership(rq.driver, s.invites[rq.code].teamId, s.invites[rq.code].role))
  }

  predicate SlotFree(s: State, code: string) {
    code in s.invites && s.invites[code].usedCount < s.invites[code].maxUses
  }

  /** An event that is not enabled cannot fire and leaves the state as it is. */
  function Step(cfg: Config, s: State, e: Event): State {
    if !Enabled(s, e) then s else
    match e
    case Add(code, invite) =>
      s.(invites := s.invites[code := invite],
         initial := s.initial[code := Stored(invite.usedCount, Winners(s, code), FullRefusals(s, code))])
    case Arrive(rq, clock) =>
      var call := LimiterCall(cfg, rq, clock);
      var task := if RateLimiter.Allowed(s.limiter, call) then Admitted(rq) else Refused(rq, RateLimited);
      s.(tasks := s.tasks + [task], limiter := RateLimiter.Step(s.limiter, call))
    case Lookup(i) =>
      s.(tasks := s.tasks[i := LookedUp(s, s.tasks[i].rq)])
    case Acquire(i) =>
      var t := s.tasks[i];
      s.(tasks := s.tasks[i := Holding(t.rq, t.grant)], locks := s.locks[t.rq.code := i])
    case Check(i) =>
      var t := s.tasks[i];
      if SlotFree(s, t.rq.code) then s.(tasks := s.tasks[i := Passed(t.rq, t.grant)])
      else s.(tasks := s.tasks[i := Refused(t.rq, Full)], locks := s.locks - {t.rq.code})
    case Commit(i) =>
      var t := s.tasks[i];
      var invite := s.invites[t.rq.code];
      s.(invites := s.invites[t.rq.code := invite.(usedCount := invite.usedCount + 1)],
         tasks := s.tasks[i := Won(t.rq, t.grant)],
         locks := s.locks - {t.rq.code})
    case Record(i) =>
      var t := s.tasks[i];
      s.(tasks := s.tasks[i := Joined(t.rq, t.grant)], memberships := s.memberships + [t.grant])
  }

  function Run(cfg: Config, h: seq<Event>): State {
    if h == [] then EMPTY else Step(cfg, Run(cfg, h[..|h| - 1]), h[|h| - 1])
  }

  lemma RunSnoc(cfg: Config, h: seq<Event>, e: Event)
    ensures Run(cfg, h + [e]) == Step(cfg, Run(cfg, h), e)
  {
    assert (h + [e])[..|h|] == h;
  }

  // ----- the invariant of every interleaving -----

  predicate Critical(t: Task) {
    t.Holding? || t.Passed?
  }

  predicate HoldsSlot(t: Task, code: string) {
    (t.Won? || t.Joined?) && t.rq.code == code
  }

  predicate TurnedAway(t: Task, code: string) {
    t.Refused? && t.reason == Full && t.rq.code == code
  }

  function Winners(s: State, code: string): nat {
    Count(s.tasks, t => HoldsSlot(t, code))
  }

  function FullRefusals(s: State, code: string): nat {
    Count(s.tasks, t => TurnedAway(t, code))
  }

  predicate Brought(t: Task, m: Membership) {
    t.Joined? && t.grant == m
  }

  /** How many joined tasks brought this very membership. */
  function Grants(s: State, m: Membership): nat {
    Count(s.tasks, t => Brought(t, m))
  }

  /** The lock table names exactly the tasks inside a critical section. */
  ghost predicate LocksOk(s: State) {
    && (forall c | c in s.locks :: s.locks[c] < |s.tasks| && Critical(s.tasks[s.locks[c]]) && s.tasks[s.locks[c]].rq.code == c)
    && (forall i | 0 <= i < |s.tasks| && Critical(s.tasks[i]) ::
          s.tasks[i].rq.code in s.locks && s.locks[s.tasks[i].rq.code] == i)
  }

  /** What a task relies on is still true. */
  ghost predicate TaskOk(s: State, t: Task) {
    && (!t.Admitted? && !t.Refused? ==> t.rq.code in s.invites)
    && (t.Passed? ==> SlotFree(s, t.rq.code))
  }

  /** Slots handed out on a code since its invite was stored. */
  function Wins(s: State, code: string): int
    requires code in s.initial
  {
    Winners(s, code) - s.initial[code].winners
  }

  /** Calls turned away as full since then. */
  function Losses(s: State, code: string): int
    requires code in s.initial
  {
    FullRefusals(s, code) - s.initial[code].refusals
  }

  ghost predicate CodeOk(v: Invite, st: Stored, winners: nat, refusals: nat) {
    && winners >= st.winners && refusals >= st.refusals
    && v.usedCount == st.used + winners - st.winners
    && v.usedCount <= Max(v.maxUses, st.used)
    && (refusals > st.refusals ==> v.usedCount >= v.maxUses)
  }

  ghost predicate CountsOk(s: State) {
    && s.initial.Keys == s.invites.Keys
    && forall c | c in s.invites :: CodeOk(s.invites[c], s.initial[c], Winners(s, c), FullRefusals(s, c))
  }

  ghost predicate TasksOk(s: State) {
    forall i | 0 <= i < |s.tasks| :: TaskOk(s, s.tasks[i])
  }

  ghost predicate Inv(s: State) {
    && LocksOk(s)
    && TasksOk(s)
    && CountsOk(s)
  }

  /** Replacing task i changes the counts of a code only by what task i was and becomes. */
  lemma CountsUpdate(s: State, s': State, i: nat, c: string)
    requires i < |s.tasks| == |s'.tasks| && s'.tasks == s.tasks[i := s'.tasks[i]]
    ensures Winners(s', c) == Winners(s, c)
              - (if HoldsSlot(s.tasks[i], c) then 1 else 0) + (if HoldsSlot(s'.tasks[i], c) then 1 else 0)
    ensures FullRefusals(s', c) == FullRefusals(s, c)
              - (if TurnedAway(s.tasks[i], c) then 1 else 0) + (if TurnedAway(s'.tasks[i], c) then 1 else 0)
  {
    CountUpdate(s.tasks, i, s'.tasks[i], t => HoldsSlot(t, c));
    CountUpdate(s.tasks, i, s'.tasks[i], t => TurnedAway(t, c));
  }

  /** An arriving call is a task that holds nothing yet. */
  lemma ArriveShape(cfg: Config, s: State, e: Event)
    requires e.Arrive?
    ensures var s' := Step(cfg, s, e);
            && |s'.tasks| == |s.tasks| + 1 && s'.tasks == s.tasks + [s'.tasks[|s.tasks|]]
            && (s'.tasks[|s.tasks|].Admitted? || (s'.tasks[|s.tasks|].Refused? && s'.tasks[|s.tasks|].reason == RateLimited))
            && s'.memberships == s.memberships && s'.invites == s.invites && s'.locks == s.locks && s'.initial == s.initial
  {
  }

  lemma ArriveCounts(s: State, s': State, x: Task)
    requires CountsOk(s) && s'.tasks == s.tasks + [x] && s'.invites == s.invites && s'.initial == s.initial
    requires x.Admitted? || (x.Refused? && x.reason == RateLimited)
    ensures CountsOk(s')
  {
    forall c ensures Winners(s', c) == Winners(s, c) && FullRefusals(s', c) == FullRefusals(s, c) {
      CountSnoc(s.tasks, x, t => HoldsSlot(t, c));
      CountSnoc(s.tasks, x, t => TurnedAway(t, c));
    }
  }

  lemma ArriveTasks(s: State, s': State, x: Task)
    requires LocksOk(s) && TasksOk(s) && s'.tasks == s.tasks + [x] && s'.invites == s.invites && s'.locks == s.locks
    requires x.Admitted? || x.Refused?
    ensures LocksOk(s') && TasksOk(s')
  {
    assert forall i | 0 <= i < |s.tasks| :: TaskOk(s, s.tasks[i]) && s'.tasks[i] == s.tasks[i];
  }

  lemma ArriveKeeps(cfg: Config, s: State, e: Event)
    requires Inv(s) && e.Arrive?
    ensures Inv(Step(cfg, s, e))
  {
    var s' := Step(cfg, s, e);
    ArriveShape(cfg, s, e);
    ArriveTasks(s, s', s'.tasks[|s.tasks|]);
    ArriveCounts(s, s', s'.tasks[|s.tasks|]);
  }

  lemma AddKeeps(cfg: Config, s: State, e: Event)
    requires Inv(s) && e.Add? && Enabled(s, e)
    ensures Inv(Step(cfg, s, e))
  {
    var s' := Step(cfg, s, e);
    assert s'.tasks == s.tasks && s'.locks == s.locks;
    assert LocksOk(s');
    assert TasksOk(s') by {
      forall i | 0 <= i < |s.tasks| ensures TaskOk(s', s.tasks[i]) {
        assert TaskOk(s, s.tasks[i]);
      }
    }
    forall c ensures Winners(s', c) == Winners(s, c) && FullRefusals(s', c) == FullRefusals(s, c) {
    }
  }

  lemma OpenStepLocks(cfg: Config, s: State, e: Event)
    requires LocksOk(s) && (e.Lookup? || e.Record?) && Enabled(s, e)
    ensures LocksOk(Step(cfg, s, e))
  {
  }

  lemma AcquireLocks(cfg: Config, s: State, e: Event)
    requires LocksOk(s) && e.Acquire? && Enabled(s, e)
    ensures LocksOk(Step(cfg, s, e))
  {
  }

  lemma CheckLocks(cfg: Config, s: State, e: Event)
    requires LocksOk(s) && e.Check? && Enabled(s, e)
    ensures LocksOk(Step(cfg, s, e))
  {
  }

  lemma CommitLocks(cfg: Config, s: State, e: Event)
    requires LocksOk(s) && e.Commit? && Enabled(s, e)
    ensures LocksOk(Step(cfg, s, e))
  {
  }

  /** Tasks other than the one that steps keep their knowledge: only the lock holder changes an invite. */
  lemma TaskStepTasks(cfg: Config, s: State, e: Event)
    requires LocksOk(s) && TasksOk(s) && !e.Arrive? && !e.Add? && Enabled(s, e)
    ensures TasksOk(Step(cfg, s, e))
  {
    var s' := Step(cfg, s, e);
    assert TaskOk(s, s.tasks[e.task]);
    forall j | 0 <= j < |s'.tasks| ensures TaskOk(s', s'.tasks[j]) {
      assert TaskOk(s, s.tasks[j]);
      if j != e.task && e.Commit? && s.tasks[j].Passed? {
        assert s.tasks[j].rq.code != s.tasks[e.task].rq.code;
      }
    }
  }

  lemma CommitCounts(cfg: Config, s: State, e: Event)
    requires TasksOk(s) && CountsOk(s) && e.Commit? && Enabled(s, e)
    ensures CountsOk(Step(cfg, s, e))
  {
    var s' := Step(cfg, s, e);
    assert TaskOk(s, s.tasks[e.task]);
    forall c | c in s'.invites ensures CodeOk(s'.invites[c], s'.initial[c], Winners(s', c), FullRefusals(s', c)) {
      CountsUpdate(s, s', e.task, c);
    }
  }

  lemma CheckCounts(cfg: Config, s: State, e: Event)
    requires TasksOk(s) && CountsOk(s) && e.Check? && Enabled(s, e)
    ensures CountsOk(Step(cfg, s, e))
  {
    var s' := Step(cfg, s, e);
    assert TaskOk(s, s.tasks[e.task]);
    assert s'.invites == s.invites && s'.initial == s.initial;
    forall c | c in s.invites ensures CodeOk(s.invites[c], s.initial[c], Winners(s', c), FullRefusals(s', c)) {
      CountsUpdate(s, s', e.task, c);
    }
  }

  /** No other step of a task hands out a slot or says that there is none. */
  lemma OtherStepCounts(cfg: Config, s: State, e: Event)
    requires CountsOk(s) && (e.Lookup? || e.Acquire? || e.Record?) && Enabled(s, e)
    ensures CountsOk(Step(cfg, s, e))
  {
    var s' := Step(cfg, s, e);
    assert s'.invites == s.invites && s'.initial == s.initial;
    forall c ensures Winners(s', c) == Winners(s, c) && FullRefusals(s', c) == FullRefusals(s, c) {
      CountsUpdate(s, s', e.task, c);
    }
  }

  lemma StepKeeps(cfg: Config, s: State, e: Event)
    requires Inv(s) && Enabled(s, e)
    ensures Inv(Step(cfg, s, e))
  {
    if e.Arrive? {
      ArriveKeeps(cfg, s, e);
    } else if e.Add? {
      AddKeeps(cfg, s, e);
    } else {
      if e.Lookup? || e.Record? {
        OpenStepLocks(cfg, s, e);
      } else if e.Acquire? {
        AcquireLocks(cfg, s, e);
      } else if e.Check? {
        CheckLocks(cfg, s, e);
      } else {
        CommitLocks(cfg, s, e);
      }
      TaskStepTasks(cfg, s, e);
      if e.Commit? {
        CommitCounts(cfg, s, e);
      } else if e.Check? {
        CheckCounts(cfg, s, e);
      } else {
        OtherStepCounts(cfg, s, e);
      }
    }
  }

  lemma {:induction false} Reachable(cfg: Config, h: seq<Event>)
    ensures Inv(Run(cfg, h))
  {
    if h == [] {
    } else {
      var s, e := Run(cfg, h[..|h| - 1]), h[|h| - 1];
      Reachable(cfg, h[..|h| - 1]);
      if Enabled(s, e) {
        StepKeeps(cfg, s, e);
      }
    }
  }

  lemma CodeReachable(cfg: Config, h: seq<Event>, code: string)
    requires code in Run(cfg, h).invites
    ensures var s := Run(cfg, h);
            code in s.initial && CodeOk(s.invites[code], s.initial[code], Winners(s, code), FullRefusals(s, code))
  {
    Reachable(cfg, h);
  }

  /**
   No over-redemption: however redeem calls interleave, a code is never used
   beyond its limit (unless it was stored beyond it), and since its invite was
   stored its use count grew by exactly the slots handed out.
   */
  lemma NoOverRedemption(cfg: Config, h: seq<Event>, code: string)
    requires code in Run(cfg, h).invites
    ensures var s := Run(cfg, h);
            && code in s.initial
            && s.invites[code].usedCount - s.initial[code].used == Wins(s, code) >= 0
            && (s.initial[code].used <= s.invites[code].maxUses ==> s.invites[code].usedCount <= s.invites[code].maxUses)
  {
    CodeReachable(cfg, h, code);
  }

  /** At most one task is between taking and releasing the lock of a code. */
  lemma MutualExclusion(cfg: Config, h: seq<Event>, i: nat, j: nat)
    requires var s := Run(cfg, h);
             && i < |s.tasks| && j < |s.tasks| && Critical(s.tasks[i]) && Critical(s.tasks[j])
             && s.tasks[i].rq.code == s.tasks[j].rq.code
    ensures i == j
  {
    Reachable(cfg, h);
  }

  /** A step of a task replaces that task alone, and records its membership exactly if that is what it does. */
  lemma TaskStepShape(cfg: Config, s: State, e: Event)
    requires !e.Arrive? && !e.Add? && Enabled(s, e)
    ensures var s' := Step(cfg, s, e);
            && |s'.tasks| == |s.tasks| && s'.tasks == s.tasks[e.task := s'.tasks[e.task]]
            && (e.Record? ==> s.tasks[e.task].Won? && s'.tasks[e.task] == Joined(s.tasks[e.task].rq, s.tasks[e.task].grant))
            && (!e.Record? ==> !s.tasks[e.task].Won? && !s.tasks[e.task].Joined? && !s'.tasks[e.task].Joined?)
            && s'.memberships == if e.Record? then s.memberships + [s.tasks[e.task].grant] else s.memberships
  {
  }

  lemma GrantStep(cfg: Config, s: State, e: Event, m: Membership)
    requires multiset(s.memberships)[m] == Grants(s, m)
    ensures multiset(Step(cfg, s, e).memberships)[m] == Grants(Step(cfg, s, e), m)
  {
    var s' := Step(cfg, s, e);
    if !Enabled(s, e) || e.Add? {
      assert s'.tasks == s.tasks && s'.memberships == s.memberships;
    } else if e.Arrive? {
      ArriveShape(cfg, s, e);
      CountSnoc(s.tasks, s'.tasks[|s.tasks|], t => Brought(t, m));
    } else {
      TaskStepShape(cfg, s, e);
      CountUpdate(s.tasks, e.task, s'.tasks[e.task], t => Brought(t, m));
    }
  }

  /** Recorded memberships are exactly those of the tasks that joined, each as often as tasks brought it. */
  lemma {:induction false} MembershipsAreGrants(cfg: Config, h: seq<Event>, m: Membership)
    ensures multiset(Run(cfg, h).memberships)[m] == Grants(Run(cfg, h), m)
  {
    if h == [] {
    } else {
      MembershipsAreGrants(cfg, h[..|h| - 1], m);
      GrantStep(cfg, Run(cfg, h[..|h| - 1]), h[|h| - 1], m);
    }
  }

  /** At position k of the run task i found this invite stored under its code, unexpired. */
  ghost predicate FoundAt(cfg: Config, h: seq<Event>, i: nat, rq: Request, grant: Membership, k: int) {
    && 0 <= k < |h| && h[k] == Lookup(i)
    && rq.code in Run(cfg, h[..k]).invites
    && var v := Run(cfg, h[..k]).invites[rq.code];
       rq.now < v.expiresAt && grant == Membership(rq.driver, v.teamId, v.role)
  }

  predicate HasGrant(t: Task) {
    !t.Admitted? && !t.Refused?
  }

  /** A task gets its grant by looking up its invite, and keeps it. */
  lemma GrantKept(cfg: Config, s: State, e: Event, i: nat)
    requires i < |Step(cfg, s, e).tasks| && HasGrant(Step(cfg, s, e).tasks[i])
    ensures i < |s.tasks| && s.tasks[i].rq == Step(cfg, s, e).tasks[i].rq
    ensures if HasGrant(s.tasks[i]) then s.tasks[i].grant == Step(cfg, s, e).tasks[i].grant
            else e == Lookup(i) && LookedUp(s, s.tasks[i].rq) == Step(cfg, s, e).tasks[i]
  {
  }

  /** A task joins for the driver who asked, with the team and role of an invite stored under its code and unexpired. */
  lemma {:induction false} GrantsMatchInvites(cfg: Config, h: seq<Event>, i: nat)
    requires i < |Run(cfg, h).tasks| && HasGrant(Run(cfg, h).tasks[i])
    ensures exists k :: FoundAt(cfg, h, i, Run(cfg, h).tasks[i].rq, Run(cfg, h).tasks[i].grant, k)
  {
    var n := |h| - 1;
    var p, e := h[..n], h[n];
    var s, t := Run(cfg, p), Run(cfg, h).tasks[i];
    GrantKept(cfg, s, e, i);
    if HasGrant(s.tasks[i]) {
      GrantsMatchInvites(cfg, p, i);
      var k :| FoundAt(cfg, p, i, t.rq, t.grant, k);
      assert p[..k] == h[..k];
      assert FoundAt(cfg, h, i, t.rq, t.grant, k);
    } else {
      assert FoundAt(cfg, h, i, t.rq, t.grant, n);
    }
  }

  /**
   No slot is wasted either: of the calls a code has answered since its invite was
   stored, as many win as there were slots for. "Fully redeemed" is only said when it is true.
   */
  lemma SlotsGoToContenders(cfg: Config, h: seq<Event>, code: string)
    requires code in Run(cfg, h).invites
    ensures var s := Run(cfg, h);
            && code in s.initial
            && Wins(s, code) == Min(Wins(s, code) + Losses(s, code), Max(0, s.invites[code].maxUses - s.initial[code].used))
  {
    CodeReachable(cfg, h, code);
    var s := Run(cfg, h);
    SlotsAddUp(s.invites[code], s.initial[code], Winners(s, code), FullRefusals(s, code));
  }

  lemma SlotsAddUp(v: Invite, st: Stored, winners: nat, refusals: nat)
    requires CodeOk(v, st, winners, refusals)
    ensures var won := winners - st.winners;
            won == Min(won + refusals - st.refusals, Max(0, v.maxUses - st.used))
  {
  }

  // ----- how every call is answered -----

  /** The redeem calls of a run, in order. */
  function Requests(h: seq<Event>): seq<Request> {
    if h == [] then [] else Requests(h[..|h| - 1]) + if h[|h| - 1].Arrive? then [h[|h| - 1].rq] else []
  }

  lemma RequestStep(cfg: Config, s: State, e: Event)
    ensures var s' := Step(cfg, s, e);
            && |s'.tasks| == |s.tasks| + (if e.Arrive? then 1 else 0)
            && (forall i | 0 <= i < |s.tasks| :: s'.tasks[i].rq == s.tasks[i].rq)
            && (e.Arrive? ==> s'.tasks[|s.tasks|].rq == e.rq)
  {
  }

  /** Task i is the i-th call, and keeps what was asked. */
  lemma {:induction false} TasksAreCalls(cfg: Config, h: seq<Event>)
    ensures |Run(cfg, h).tasks| == |Requests(h)|
    ensures forall i | 0 <= i < |Requests(h)| :: Run(cfg, h).tasks[i].rq == Requests(h)[i]
  {
    if h == [] {
    } else {
      TasksAreCalls(cfg, h[..|h| - 1]);
      RequestStep(cfg, Run(cfg, h[..|h| - 1]), h[|h| - 1]);
    }
  }

  /** The invite last stored under a code. */
  function LastAdded(cfg: Config, h: seq<Event>, code: string): Option<Invite> {
    if h == [] then None else
      var p, e := h[..|h| - 1], h[|h| - 1];
      if e.Add? && e.code == code && Enabled(Run(cfg, p), e) then Some(e.invite) else LastAdded(cfg, p, code)
  }

  lemma InviteStep(cfg: Config, s: State, e: Event, code: string)
    ensures var s' := Step(cfg, s, e);
            if e.Add? && e.code == code && Enabled(s, e) then
              && code in s'.invites && s'.invites[code] == e.invite
              && code in s'.initial && s'.initial[code].used == e.invite.usedCount
            else
              && (code in s'.invites <==> code in s.invites)
              && (code in s.invites ==> s'.invites[code] == s.invites[code].(usedCount := s'.invites[code].usedCount))
              && (code in s'.initial <==> code in s.initial) && (code in s.initial ==> s'.initial[code] == s.initial[code])
  {
  }

  /** What is stored under a code is the invite last added to it; redemptions move its use count alone. */
  lemma {:induction false} InviteIsLastAdded(cfg: Config, h: seq<Event>, code: string)
    ensures var s, last := Run(cfg, h), LastAdded(cfg, h, code);
            && (code in s.invites <==> last.Some?) && (code in s.initial <==> last.Some?)
            && (last.Some? ==>
                  && s.invites[code] == last.value.(usedCount := s.invites[code].usedCount)
                  && s.initial[code].used == last.value.usedCount)
  {
    if h == [] {
    } else {
      InviteIsLastAdded(cfg, h[..|h| - 1], code);
      InviteStep(cfg, Run(cfg, h[..|h| - 1]), h[|h| - 1], code);
    }
  }

  /**
   The event refuses task i for the reason: the limiter is over its limit, the code is not
   stored, its invite has expired by the time given, or its uses are used up.
   */
  ghost predicate Causes(cfg: Config, s: State, e: Event, i: nat, rq: Request, reason: Refusal) {
    match reason
    case RateLimited =>
      && e.Arrive? && e.rq == rq && i == |s.tasks|
      && !RateLimiter.Allowed(s.limiter, RateLimiter.Call("team-join:" + rq.requester, e.clock, cfg.maxAttempts, cfg.windowSeconds))
    case UnknownCode =>
      e == Lookup(i) && i < |s.tasks| && s.tasks[i] == Admitted(rq) && rq.code !in s.invites
    case Expired =>
      && e == Lookup(i) && i < |s.tasks| && s.tasks[i] == Admitted(rq)
      && rq.code in s.invites && s.invites[rq.code].expiresAt <= rq.now
    case Full =>
      && e == Check(i) && i < |s.tasks| && s.tasks[i].Holding? && s.tasks[i].rq == rq
      && (rq.code in s.invites ==> s.invites[rq.code].usedCount >= s.invites[rq.code].maxUses)
  }

  ghost predicate IsRefused(s: State, i: nat, rq: Request, reason: Refusal) {
    i < |s.tasks| && s.tasks[i] == Refused(rq, reason)
  }

  lemma RefusedByArrival(cfg: Config, s: State, e: Event, i: nat, rq: Request, reason: Refusal)
    requires e.Arrive? || e.Add?
    ensures IsRefused(Step(cfg, s, e), i, rq, reason) <==> IsRefused(s, i, rq, reason) || Causes(cfg, s, e, i, rq, reason)
  {
  }

  lemma RefusedByTask(cfg: Config, s: State, e: Event, i: nat, rq: Request, reason: Refusal)
    requires e.Lookup? || e.Check?
    ensures IsRefused(Step(cfg, s, e), i, rq, reason) <==> IsRefused(s, i, rq, reason) || Causes(cfg, s, e, i, rq, reason)
  {
  }

  lemma NotRefused(cfg: Config, s: State, e: Event, i: nat, rq: Request, reason: Refusal)
    requires e.Acquire? || e.Commit? || e.Record?
    ensures IsRefused(Step(cfg, s, e), i, rq, reason) <==> IsRefused(s, i, rq, reason)
  {
  }

  ghost predicate CausedAt(cfg: Config, h: seq<Event>, i: nat, rq: Request, reason: Refusal, k: int) {
    0 <= k < |h| && Causes(cfg, Run(cfg, h[..k]), h[k], i, rq, reason)
  }

  ghost predicate SomeCause(cfg: Config, h: seq<Event>, i: nat, rq: Request, reason: Refusal) {
    exists k :: CausedAt(cfg, h, i, rq, reason, k)
  }

  lemma CausePrefix(cfg: Config, h: seq<Event>, i: nat, rq: Request, reason: Refusal, k: int)
    requires h != [] && k < |h| - 1
    ensures CausedAt(cfg, h[..|h| - 1], i, rq, reason, k) <==> CausedAt(cfg, h, i, rq, reason, k)
  {
    if 0 <= k {
      assert h[..|h| - 1][..k] == h[..k] && h[..|h| - 1][k] == h[k];
    }
  }

  lemma CauseSnoc(cfg: Config, h: seq<Event>, i: nat, rq: Request, reason: Refusal)
    requires h != []
    ensures SomeCause(cfg, h, i, rq, reason) <==>
              SomeCause(cfg, h[..|h| - 1], i, rq, reason) || CausedAt(cfg, h, i, rq, reason, |h| - 1)
  {
    var p := h[..|h| - 1];
    if k :| CausedAt(cfg, p, i, rq, reason, k) {
      CausePrefix(cfg, h, i, rq, reason, k);
    }
    if k :| CausedAt(cfg, h, i, rq, reason, k) && k < |h| - 1 {
      CausePrefix(cfg, h, i, rq, reason, k);
    }
  }

  lemma RefusedStep(cfg: Config, s: State, e: Event, i: nat, rq: Request, reason: Refusal)
    ensures IsRefused(Step(cfg, s, e), i, rq, reason) <==> IsRefused(s, i, rq, reason) || Causes(cfg, s, e, i, rq, reason)
  {
    if e.Arrive? || e.Add? {
      RefusedByArrival(cfg, s, e, i, rq, reason);
    } else if e.Lookup? || e.Check? {
      RefusedByTask(cfg, s, e, i, rq, reason);
    } else {
      NotRefused(cfg, s, e, i, rq, reason);
    }
  }

  /** A call is refused, and for that reason, if and only if some event of the run gave cause; nothing else refuses. */
  lemma {:induction false} RefusedIffCaused(cfg: Config, h: seq<Event>, i: nat, rq: Request, reason: Refusal)
    ensures IsRefused(Run(cfg, h), i, rq, reason) <==> SomeCause(cfg, h, i, rq, reason)
  {
    if h == [] {
    } else {
      RefusedIffCaused(cfg, h[..|h| - 1], i, rq, reason);
      CauseSnoc(cfg, h, i, rq, reason);
      RefusedStep(cfg, Run(cfg, h[..|h| - 1]), h[|h| - 1], i, rq, reason);
    }
  }

  /** What looking up a code leads to: unknown, expired, or waiting for the lock with the grant of the invite found. */
  lemma LookupDecides(cfg: Config, s: State, i: nat)
    requires i < |s.tasks| && s.tasks[i].Admitted?
    ensures var rq := s.tasks[i].rq;
            Step(cfg, s, Lookup(i)).tasks[i] ==
              if rq.code !in s.invites then Refused(rq, UnknownCode)
              else if rq.now >= s.invites[rq.code].expiresAt then Refused(rq, Expired)
              else Waiting(rq, Membership(rq.driver, s.invites[rq.code].teamId, s.invites[rq.code].role))
  {
  }

  // ----- all codes together -----

  predicate Holds(t: Task) {
    t.Won? || t.Joined?
  }

  /** Winners whose membership has not been recorded yet. */
  function Unrecorded(s: State): nat {
    Count(s.tasks, (t: Task) => t.Won?)
  }

  /** The codes stored over a run, in order. */
  function Codes(cfg: Config, h: seq<Event>): seq<string> {
    if h == [] then [] else
      var p, e := h[..|h| - 1], h[|h| - 1];
      Codes(cfg, p) + if e.Add? && Enabled(Run(cfg, p), e) && e.code !in Run(cfg, p).invites then [e.code] else []
  }

  /** How much the use counts of the codes have grown, under the invites stored now and under those they replaced. */
  ghost function Growth(s: State, codes: seq<string>): int
    requires forall c | c in codes :: c in s.invites && c in s.initial
  {
    if codes == [] then 0 else
      var c := codes[|codes| - 1];
      Growth(s, codes[..|codes| - 1]) + s.invites[c].usedCount - s.initial[c].used + s.initial[c].winners
  }

  lemma AddsInvite(cfg: Config, s: State, e: Event, c: string)
    ensures c in Step(cfg, s, e).invites <==> c in s.invites || (e.Add? && Enabled(s, e) && e.code == c)
  {
  }

  lemma {:induction false} CodesAreStored(cfg: Config, h: seq<Event>, c: string)
    ensures c in Codes(cfg, h) <==> c in Run(cfg, h).invites
  {
    if h == [] {
    } else {
      CodesAreStored(cfg, h[..|h| - 1], c);
      AddsInvite(cfg, Run(cfg, h[..|h| - 1]), h[|h| - 1], c);
    }
  }

  lemma {:induction false} CodesDistinct(cfg: Config, h: seq<Event>)
    ensures NoDup(Codes(cfg, h))
  {
    if h == [] {
    } else {
      var p, e := h[..|h| - 1], h[|h| - 1];
      CodesDistinct(cfg, p);
      if e.Add? && Enabled(Run(cfg, p), e) && e.code !in Run(cfg, p).invites {
        CodesAreStored(cfg, p, e.code);
        NoDupSnoc(Codes(cfg, p), e.code);
      }
    }
  }

  /** The slots held on each of the codes, added up. */
  function SlotSum(tasks: seq<Task>, codes: seq<string>): nat {
    if codes == [] then 0 else
      var c := codes[|codes| - 1];
      SlotSum(tasks, codes[..|codes| - 1]) + Count(tasks, t => HoldsSlot(t, c))
  }

  lemma {:induction false} SlotSumSnoc(tasks: seq<Task>, x: Task, codes: seq<string>)
    requires NoDup(codes)
    ensures SlotSum(tasks + [x], codes) == SlotSum(tasks, codes) + if Holds(x) && x.rq.code in codes then 1 else 0
  {
    if codes == [] {
    } else {
      var front, c := codes[..|codes| - 1], codes[|codes| - 1];
      assert codes == front + [c];
      NoDupSnoc(front, c);
      SlotSumSnoc(tasks, x, front);
      CountSnoc(tasks, x, t => HoldsSlot(t, c));
    }
  }

  lemma {:induction false} NoSlots(codes: seq<string>)
    ensures SlotSum([], codes) == 0
  {
    if codes == [] {
    } else {
      NoSlots(codes[..|codes| - 1]);
    }
  }

  /** Every task that holds a slot holds it on one of the codes. */
  ghost predicate HeldOn(tasks: seq<Task>, codes: seq<string>) {
    forall i | 0 <= i < |tasks| && Holds(tasks[i]) :: tasks[i].rq.code in codes
  }

  lemma {:induction false} SlotSumIsHolders(tasks: seq<Task>, codes: seq<string>)
    requires NoDup(codes) && HeldOn(tasks, codes)
    ensures SlotSum(tasks, codes) == Count(tasks, t => Holds(t))
  {
    if tasks == [] {
      NoSlots(codes);
    } else {
      var front, x := tasks[..|tasks| - 1], tasks[|tasks| - 1];
      assert tasks == front + [x] && HeldOn(front, codes);
      SlotSumIsHolders(front, codes);
      SlotSumSnoc(front, x, codes);
      CountSnoc(front, x, t => Holds(t));
    }
  }

  lemma {:induction false} GrowthIsSlots(s: State, codes: seq<string>)
    requires CountsOk(s) && forall c | c in codes :: c in s.invites
    ensures Growth(s, codes) == SlotSum(s.tasks, codes)
  {
    if codes == [] {
    } else {
      GrowthIsSlots(s, codes[..|codes| - 1]);
    }
  }

  /** Tasks that hold a slot are recorded or not yet. */
  lemma {:induction false} HoldersSplit(tasks: seq<Task>)
    ensures Count(tasks, t => Holds(t)) == Count(tasks, (t: Task) => t.Won?) + Count(tasks, (t: Task) => t.Joined?)
  {
    if tasks == [] {
    } else {
      HoldersSplit(tasks[..|tasks| - 1]);
    }
  }

  lemma {:induction false} RecordedAreJoined(cfg: Config, h: seq<Event>)
    ensures |Run(cfg, h).memberships| == Count(Run(cfg, h).tasks, (t: Task) => t.Joined?)
  {
    if h == [] {
    } else {
      var s, e := Run(cfg, h[..|h| - 1]), h[|h| - 1];
      RecordedAreJoined(cfg, h[..|h| - 1]);
      JoinedStep(cfg, s, e);
    }
  }

  lemma JoinedStep(cfg: Config, s: State, e: Event)
    requires |s.memberships| == Count(s.tasks, (t: Task) => t.Joined?)
    ensures |Step(cfg, s, e).memberships| == Count(Step(cfg, s, e).tasks, (t: Task) => t.Joined?)
  {
    var s' := Step(cfg, s, e);
    if !Enabled(s, e) || e.Add? {
      assert s'.tasks == s.tasks && s'.memberships == s.memberships;
    } else if e.Arrive? {
      ArriveShape(cfg, s, e);
      CountSnoc(s.tasks, s'.tasks[|s.tasks|], (t: Task) => t.Joined?);
    } else {
      TaskStepShape(cfg, s, e);
      CountUpdate(s.tasks, e.task, s'.tasks[e.task], (t: Task) => t.Joined?);
    }
  }

  /** Memberships created plus winners not yet recorded is, at every moment, the growth of all use counts together. */
  lemma MembershipsMeetGrowth(cfg: Config, h: seq<Event>)
    ensures forall c | c in Codes(cfg, h) :: c in Run(cfg, h).invites && c in Run(cfg, h).initial
    ensures |Run(cfg, h).memberships| + Unrecorded(Run(cfg, h)) == Growth(Run(cfg, h), Codes(cfg, h))
  {
    var s, codes := Run(cfg, h), Codes(cfg, h);
    Reachable(cfg, h);
    forall c ensures c in codes <==> c in s.invites {
      CodesAreStored(cfg, h, c);
    }
    CodesDistinct(cfg, h);
    assert HeldOn(s.tasks, codes) by {
      forall i | 0 <= i < |s.tasks| && Holds(s.tasks[i]) ensures s.tasks[i].rq.code in codes {
        assert TaskOk(s, s.tasks[i]);
      }
    }
    GrowthIsSlots(s, codes);
    SlotSumIsHolders(s.tasks, codes);
    HoldersSplit(s.tasks);
    RecordedAreJoined(cfg, h);
  }

  // ----- no deadlock -----

  predicate Settled(t: Task) {
    t.Joined? || t.Refused?
  }

  function StepsLeft(t: Task): nat {
    match t
    case Admitted(_) => 5
    case Waiting(_, _) => 4
    case Holding(_, _) => 3
    case Passed(_, _) => 2
    case Won(_, _) => 1
    case Joined(_, _) => 0
    case Refused(_, _) => 0
  }

  ghost function Work(tasks: seq<Task>): nat {
    if tasks == [] then 0 else Work(tasks[..|tasks| - 1]) + StepsLeft(tasks[|tasks| - 1])
  }

  lemma {:induction false} WorkUpdate(tasks: seq<Task>, i: nat, x: Task)
    requires i < |tasks|
    ensures Work(tasks[i := x]) == Work(tasks) - StepsLeft(tasks[i]) + StepsLeft(x)
  {
    var n := |tasks| - 1;
    if i == n {
      assert tasks[i := x][..n] == tasks[..n];
    } else {
      assert tasks[i := x][..n] == tasks[..n][i := x];
      WorkUpdate(tasks[..n], i, x);
    }
  }

  /** The step a task would take next. */
  function Next(s: State, k: nat): Event
    requires k < |s.tasks|
  {
    match s.tasks[k]
    case Admitted(_) => Lookup(k)
    case Waiting(_, _) => Acquire(k)
    case Holding(_, _) => Check(k)
    case Passed(_, _) => Commit(k)
    case _ => Record(k)
  }

  /** The task to run so that task i gets on: i itself, or the holder of the lock it waits for. */
  function Mover(s: State, i: nat): nat
    requires i < |s.tasks|
  {
    var t := s.tasks[i];
    if t.Waiting? && t.rq.code in s.locks then s.locks[t.rq.code] else i
  }

  lemma MoverCanStep(s: State, i: nat)
    requires Inv(s) && i < |s.tasks| && !Settled(s.tasks[i])
    ensures Mover(s, i) < |s.tasks| && !Settled(s.tasks[Mover(s, i)]) && Enabled(s, Next(s, Mover(s, i)))
  {
    assert TaskOk(s, s.tasks[i]);
    if s.tasks[i].Waiting? && s.tasks[i].rq.code in s.locks {
      assert TaskOk(s, s.tasks[Mover(s, i)]);
    }
  }

  predicate MovedOn(before: seq<Task>, after: seq<Task>, k: nat) {
    |after| == |before| > k && after == before[k := after[k]] && StepsLeft(after[k]) < StepsLeft(before[k])
  }

  lemma MovesBeforeLock(cfg: Config, s: State, k: nat)
    requires k < |s.tasks| && (s.tasks[k].Admitted? || s.tasks[k].Waiting?) && Enabled(s, Next(s, k))
    ensures MovedOn(s.tasks, Step(cfg, s, Next(s, k)).tasks, k)
  {
  }

  lemma MovesInLock(cfg: Config, s: State, k: nat)
    requires k < |s.tasks| && Critical(s.tasks[k]) && Enabled(s, Next(s, k))
    ensures MovedOn(s.tasks, Step(cfg, s, Next(s, k)).tasks, k)
  {
  }

  lemma StepIsProgress(cfg: Config, s: State, k: nat)
    requires k < |s.tasks| && !Settled(s.tasks[k]) && Enabled(s, Next(s, k))
    ensures Work(Step(cfg, s, Next(s, k)).tasks) < Work(s.tasks)
  {
    if s.tasks[k].Admitted? || s.tasks[k].Waiting? {
      MovesBeforeLock(cfg, s, k);
    } else if Critical(s.tasks[k]) {
      MovesInLock(cfg, s, k);
    } else {
      assert Next(s, k) == Record(k);
    }
    WorkUpdate(s.tasks, k, Step(cfg, s, Next(s, k)).tasks[k]);
  }

  /**
   As long as a call is unanswered some task can step, and its step brings the
   calls in flight closer to their answers: the lock never deadlocks.
   */
  lemma Progress(cfg: Config, h: seq<Event>, i: nat)
    requires i < |Run(cfg, h).tasks| && !Settled(Run(cfg, h).tasks[i])
    ensures var s := Run(cfg, h);
            var k := Mover(s, i);
            k < |s.tasks| && Enabled(s, Next(s, k)) && Work(Step(cfg, s, Next(s, k)).tasks) < Work(s.tasks)
  {
    Reachable(cfg, h);
    MoverCanStep(Run(cfg, h), i);
    StepIsProgress(cfg, Run(cfg, h), Mover(Run(cfg, h), i));
  }

  // ----- the limiter in front -----

  function Calls(cfg: Config, h: seq<Event>): seq<RateLimiter.Call> {
    if h == [] then [] else
      var e := h[|h| - 1];
      Calls(cfg, h[..|h| - 1]) + (if e.Arrive? then [LimiterCall(cfg, e.rq, e.clock)] else [])
  }

  lemma CallsGrow(cfg: Config, h: seq<Event>, e: Event)
    ensures Calls(cfg, h + [e]) == Calls(cfg, h) + if e.Arrive? then [LimiterCall(cfg, e.rq, e.clock)] else []
  {
    assert (h + [e])[..|h|] == h;
  }

  /** Calls of one requester let past the limiter at a clock reading in [t, t + window). */
  function AdmittedIn(cfg: Config, h: seq<Event>, requester: string, t: real): nat {
    if h == [] then 0 else
      var p, e := h[..|h| - 1], h[|h| - 1];
      var s' := Run(cfg, h);
      AdmittedIn(cfg, p, requester, t)
      + (if e.Arrive? && e.rq.requester == requester && t <= e.clock < t + cfg.windowSeconds
            && s'.tasks != [] && s'.tasks[|s'.tasks| - 1].Admitted? then 1 else 0)
  }

  ghost predicate ClockMonotone(h: seq<Event>) {
    forall i, j | 0 <= i < j < |h| && h[i].Arrive? && h[j].Arrive? :: h[i].clock <= h[j].clock
  }

  lemma KeysInjective(a: string, b: string)
    ensures "team-join:" + a == "team-join:" + b <==> a == b
  {
    assert ("team-join:" + a)[10..] == a && ("team-join:" + b)[10..] == b;
  }

  /** Only an arrival goes past the limiter, and it is admitted exactly if the limiter allows it. */
  lemma LimiterStep(cfg: Config, s: State, e: Event)
    ensures !e.Arrive? ==> Step(cfg, s, e).limiter == s.limiter
    ensures e.Arrive? ==>
              var s', call := Step(cfg, s, e), LimiterCall(cfg, e.rq, e.clock);
              && s'.limiter == RateLimiter.Step(s.limiter, call)
              && s'.tasks != [] && (s'.tasks[|s'.tasks| - 1].Admitted? <==> RateLimiter.Allowed(s.limiter, call))
  {
  }

  lemma {:induction false} LimiterReplay(cfg: Config, h: seq<Event>, requester: string, t: real)
    ensures Run(cfg, h).limiter == RateLimiter.Run(Calls(cfg, h))
    ensures AdmittedIn(cfg, h, requester, t)
         == RateLimiter.AllowedIn(Calls(cfg, h), "team-join:" + requester, t, cfg.windowSeconds)
  {
    if h == [] {
    } else {
      var p, e := h[..|h| - 1], h[|h| - 1];
      LimiterReplay(cfg, p, requester, t);
      LimiterStep(cfg, Run(cfg, p), e);
      if e.Arrive? {
        var call := LimiterCall(cfg, e.rq, e.clock);
        RateLimiter.RunSnoc(Calls(cfg, p), call);
        RateLimiter.AllowedSnoc(Calls(cfg, p), call, "team-join:" + requester, t, cfg.windowSeconds);
        KeysInjective(e.rq.requester, requester);
      } else {
        assert Calls(cfg, h) == Calls(cfg, p);
      }
    }
  }

  /** The limiter is called in clock order, always with the configured limit and window. */
  lemma {:induction false} CallsTimed(cfg: Config, h: seq<Event>, last: real)
    requires ClockMonotone(h)
    requires forall i | 0 <= i < |h| && h[i].Arrive? :: h[i].clock <= last
    ensures var cs := Calls(cfg, h);
            && RateLimiter.Monotone(cs)
            && forall k | 0 <= k < |cs| ::
                 cs[k].limit == cfg.maxAttempts && cs[k].span == cfg.windowSeconds && cs[k].at <= last
  {
    if h == [] {
    } else {
      var e := h[|h| - 1];
      CallsTimed(cfg, h[..|h| - 1], if e.Arrive? then e.clock else last);
    }
  }

  function Latest(h: seq<Event>): (t: real)
    ensures forall i | 0 <= i < |h| && h[i].Arrive? :: h[i].clock <= t
  {
    if h == [] then 0.0 else
      var e, t := h[|h| - 1], Latest(h[..|h| - 1]);
      if e.Arrive? && e.clock > t then e.clock else t
  }

  /** The clock readings at which a requester called. */
  function ClocksOf(h: seq<Event>, requester: string): seq<real> {
    if h == [] then [] else
      var e := h[|h| - 1];
      ClocksOf(h[..|h| - 1], requester) + if e.Arrive? && e.rq.requester == requester then [e.clock] else []
  }

  lemma {:induction false} ClocksAreTimes(cfg: Config, h: seq<Event>, requester: string)
    ensures RateLimiter.TimesOf(Calls(cfg, h), "team-join:" + requester) == ClocksOf(h, requester)
    ensures RateLimiter.Uniform(Calls(cfg, h), "team-join:" + requester, cfg.maxAttempts, cfg.windowSeconds)
  {
    if h == [] {
    } else {
      var p, e := h[..|h| - 1], h[|h| - 1];
      ClocksAreTimes(cfg, p, requester);
      if e.Arrive? {
        KeysInjective(e.rq.requester, requester);
        RateLimiter.TimesSnoc(Calls(cfg, p), LimiterCall(cfg, e.rq, e.clock), "team-join:" + requester);
      } else {
        assert Calls(cfg, h) == Calls(cfg, p);
      }
    }
  }

  /**
   A call gets past the limiter if and only if fewer than `maxAttempts` calls of the same
   requester came before it in its window; otherwise it is refused at once.
   */
  lemma AdmittedIffBelowLimit(cfg: Config, h: seq<Event>, rq: Request, clock: real)
    requires cfg.windowSeconds > 0.0
    ensures var ts := ClocksOf(h, rq.requester) + [clock];
            var earlier := |ts| - 1 - RateLimiter.Opener(ts, cfg.windowSeconds, |ts| - 1);
            Run(cfg, h + [Arrive(rq, clock)]).tasks
            == Run(cfg, h).tasks + [if earlier < cfg.maxAttempts then Admitted(rq) else Refused(rq, RateLimited)]
  {
    var call := LimiterCall(cfg, rq, clock);
    var h' := h + [Arrive(rq, clock)];
    assert h'[..|h|] == h;
    RunSnoc(cfg, h, Arrive(rq, clock));
    LimiterReplay(cfg, h, rq.requester, 0.0);
    ClocksAreTimes(cfg, h', rq.requester);
    CallsGrow(cfg, h, Arrive(rq, clock));
    RateLimiter.FirstCallsPass(Calls(cfg, h'), "team-join:" + rq.requester, cfg.maxAttempts, cfg.windowSeconds);
    assert Calls(cfg, h')[..|Calls(cfg, h)|] == Calls(cfg, h);
  }

  /** Guessing is throttled: no window holds more than 2 * maxAttempts - 1 admitted calls of one requester. */
  lemma GuessingIsThrottled(cfg: Config, h: seq<Event>, requester: string, t: real)
    requires ClockMonotone(h)
    ensures AdmittedIn(cfg, h, requester, t) <= Max(0, 2 * cfg.maxAttempts - 1)
  {
    CallsTimed(cfg, h, Latest(h));
    LimiterReplay(cfg, h, requester, t);
    RateLimiter.SlidingBound(Calls(cfg, h), "team-join:" + requester, cfg.maxAttempts, cfg.windowSeconds, t);
  }

  // ----- the service object: one method per atomic segment of `redeem` -----

  class TeamJoinService {
    const cfg: Config
    const limiter: RateLimiter.InMemoryRateLimiter
    var invites: map<string, Invite>
    var locks: map<string, nat>
    var tasks: seq<Task>
    var memberships: seq<Membership>
    ghost var initial: map<string, Stored>
    ghost var history: seq<Event>

    ghost function Snapshot(): State
      reads this, limiter
    {
      State(invites, locks, tasks, memberships, limiter.windows, initial)
    }

    ghost predicate Valid()
      reads this, limiter
    {
      && limiter.Valid() && limiter.history == Calls(cfg, history)
      && Snapshot() == Run(cfg, history)
    }

    ghost predicate Extends(before: seq<Event>, e: Event)
      reads this
    {
      history == before + [e]
    }

    constructor (cfg: Config)
      ensures Valid() && history == [] && this.cfg == cfg && fresh(limiter)
    {
      this.cfg := cfg;
      limiter := new RateLimiter.InMemoryRateLimiter();
      invites, locks, tasks, memberships := map[], map[], [], [];
      initial, history := map[], [];
    }

    /** Stores an invite, over one of the same code if there is any. */
    method AddInvite(code: string, invite: Invite)
      requires Valid() && Quiet(Snapshot(), code)
      modifies this
      ensures Valid() && Extends(old(history), Add(code, invite))
    {
      CallsUnmoved(Add(code, invite));
      ghost var s := Run(cfg, history);
      initial := initial[code := Stored(invite.usedCount, Winners(s, code), FullRefusals(s, code))];
      invites := invites[code := invite];
      Log(Add(code, invite));
    }

    ghost method Log(e: Event)
      requires limiter.Valid() && limiter.history == Calls(cfg, history + [e])
      requires Snapshot() == Step(cfg, Run(cfg, history), e)
      modifies this`history
      ensures Valid() && Extends(old(history), e)
    {
      RunSnoc(cfg, history, e);
      history := history + [e];
    }

    lemma CallsUnmoved(e: Event)
      requires Valid() && !e.Arrive?
      ensures limiter.history == Calls(cfg, history + [e])
    {
      CallsGrow(cfg, history, e);
    }

    lemma CodeKnown(i: nat)
      requires Valid() && i < |tasks| && tasks[i].Passed?
      ensures tasks[i].rq.code in invites
    {
      Reachable(cfg, history);
      assert TaskOk(Run(cfg, history), tasks[i]);
    }

    method Enter(rq: Request, clock: real) returns (i: nat)
      requires Valid()
      modifies this, limiter
      ensures Valid() && Extends(old(history), Arrive(rq, clock))
      ensures i == |old(tasks)| && |tasks| == i + 1
    {
      i := |tasks|;
      var allowed := limiter.Allow(clock, "team-join:" + rq.requester, cfg.maxAttempts, cfg.windowSeconds);
      tasks := tasks + [if allowed then Admitted(rq) else Refused(rq, RateLimited)];
      CallsGrow(cfg, history, Arrive(rq, clock));
      RateLimiter.RunSnoc(old(limiter.history), LimiterCall(cfg, rq, clock));
      Log(Arrive(rq, clock));
    }

    method LookupInvite(i: nat)
      requires Valid() && i < |tasks| && tasks[i].Admitted?
      modifies this
      ensures Valid() && Extends(old(history), Lookup(i))
    {
      CallsUnmoved(Lookup(i));
      var rq := tasks[i].rq;
      if rq.code !in invites {
        tasks := tasks[i := Refused(rq, UnknownCode)];
      } else if invites[rq.code].expiresAt <= rq.now {
        tasks := tasks[i := Refused(rq, Expired)];
      } else {
        var invite := invites[rq.code];
        tasks := tasks[i := Waiting(rq, Membership(rq.driver, invite.teamId, invite.role))];
      }
      Log(Lookup(i));
    }

    method TakeLock(i: nat)
      requires Valid() && i < |tasks| && tasks[i].Waiting? && tasks[i].rq.code !in locks
      modifies this
      ensures Valid() && Extends(old(history), Acquire(i))
    {
      CallsUnmoved(Acquire(i));
      locks := locks[tasks[i].rq.code := i];
      tasks := tasks[i := Holding(tasks[i].rq, tasks[i].grant)];
      Log(Acquire(i));
    }

    method CheckSlot(i: nat) returns (free: bool)
      requires Valid() && i < |tasks| && tasks[i].Holding?
      modifies this
      ensures Valid() && Extends(old(history), Check(i))
      ensures free <==> tasks[i].Passed?
    {
      CallsUnmoved(Check(i));
      var t := tasks[i];
      free := t.rq.code in invites && invites[t.rq.code].usedCount < invites[t.rq.code].maxUses;
      if free {
        tasks := tasks[i := Passed(t.rq, t.grant)];
      } else {
        tasks := tasks[i := Refused(t.rq, Full)];
        locks := locks - {t.rq.code};
      }
      Log(Check(i));
    }

    method CommitSlot(i: nat)
      requires Valid() && i < |tasks| && tasks[i].Passed?
      modifies this
      ensures Valid() && Extends(old(history), Commit(i))
      ensures tasks[i].Won?
    {
      CodeKnown(i);
      CallsUnmoved(Commit(i));
      var t := tasks[i];
      var invite := invites[t.rq.code];
      invites := invites[t.rq.code := invite.(usedCount := invite.usedCount + 1)];
      locks := locks - {t.rq.code};
      tasks := tasks[i := Won(t.rq, t.grant)];
      Log(Commit(i));
    }

    method RecordMembership(i: nat) returns (m: Membership)
      requires Valid() && i < |tasks| && tasks[i].Won?
      modifies this
      ensures Valid() && Extends(old(history), Record(i))
      ensures memberships == old(memberships) + [m]
    {
      CallsUnmoved(Record(i));
      m := tasks[i].grant;
      memberships := memberships + [m];
      tasks := tasks[i := Joined(tasks[i].rq, m)];
      Log(Record(i));
    }
  }
}
