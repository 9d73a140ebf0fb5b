/**
 Charging finished sessions: by wallet, or by card with a failure streak that
 schedules retries and in the end suspends the driver. The payment provider is
 an oracle that declines or not. A charge suspends only while the provider is
 asked, and changes nothing before that, so overlapping charges are a run of
 whole charges in the order the provider answers them.
 */
module SessionBilling {
  import opened Seqs
  import Wallet

  type DriverId = nat

  /** A wallet's default method; an unusable one is a card without a token or a kind nobody knows. */
  datatype Method = NoMethod | WalletBalance | Card(token: string) | Unusable

  datatype Status = Charged | PaymentFailed

  datatype Retry = Retry(session: string, attempt: nat, at: int)

  datatype Charge = Charge(
    session: string, wallet: nat, driver: DriverId, amount: int, currency: string, via: Method, declined: bool, now: int)

  /** What the payment provider is asked, under a key by which it recognises a repeated request. */
  datatype ProviderCall = ProviderCall(token: string, amount: int, currency: string, key: string)

  datatype State = State(
    counts: map<DriverId, nat>, suspended: set<DriverId>, retries: seq<Retry>, statuses: map<string, Status>,
    calls: seq<ProviderCall>)

  const EMPTY := State(map[], {}, [], map[], [])

  /** Minutes until the next attempt. */
  const BACKOFF_MINUTES := [5, 30, 120]

  function Backoff(attempt: nat): int
    requires attempt >= 1
  {
    BACKOFF_MINUTES[Min(attempt - 1, 2)]
  }

  function FailureCount(s: State, d: DriverId): nat {
    if d in s.counts then s.counts[d] else 0
  }

  function Step(threshold: int, s: State, c: Charge): State {
    match c.via
    case NoMethod => s.(statuses := s.statuses[c.session := Charged])
    case WalletBalance => s.(statuses := s.statuses[c.session := Charged])
    case Unusable => s
    case Card(token) =>
      var calls := s.calls + [ProviderCall(token, c.amount, c.currency, Wallet.SessionRef(c.session))];
      if c.declined then
        var n := FailureCount(s, c.driver) + 1;
        State(s.counts[c.driver := n],
              if n >= threshold then s.suspended + {c.driver} else s.suspended,
              s.retries + [Retry(c.session, n, c.now + 60 * Backoff(n))],
              s.statuses[c.session := PaymentFailed],
              calls)
      else
        s.(counts := s.counts[c.driver := 0], statuses := s.statuses[c.session := Charged], calls := calls)
  }

  function Run(threshold: int, h: seq<Charge>): State {
    if h == [] then EMPTY else Step(threshold, Run(threshold, h[..|h| - 1]), h[|h| - 1])
  }

  // ----- the reference, read off the history -----

  predicate Declines(c: Charge, d: DriverId) {
    c.driver == d && c.via.Card? && c.declined
  }

  predicate Succeeds(c: Charge, d: DriverId) {
    c.driver == d && c.via.Card? && !c.declined
  }

  /** Declined card charges of a driver since the last card charge of theirs that went through. */
  function Streak(h: seq<Charge>, d: DriverId): nat {
    if h == [] || Succeeds(h[|h| - 1], d) then 0
    else Streak(h[..|h| - 1], d) + if Declines(h[|h| - 1], d) then 1 else 0
  }

  /** One retry per declined card charge, numbered by the streak it belongs to. */
  function Retries(h: seq<Charge>): seq<Retry> {
    if h == [] then [] else
      var c := h[|h| - 1];
      Retries(h[..|h| - 1])
      + if Declines(c, c.driver) then [Retry(c.session, Streak(h, c.driver), c.now + 60 * Backoff(Streak(h, c.driver)))] else []
  }

  /** The streak of some prefix of the run reached the threshold as a charge was declined. */
  ghost predicate Reached(threshold: int, h: seq<Charge>, d: DriverId) {
    exists i :: ReachedAt(threshold, h, d, i)
  }

  ghost predicate ReachedAt(threshold: int, h: seq<Charge>, d: DriverId, i: int) {
    0 <= i < |h| && Declines(h[i], d) && Streak(h[..i + 1], d) >= threshold
  }

  lemma ReachedPrefix(threshold: int, h: seq<Charge>, d: DriverId, i: int)
    requires 0 <= i < |h| - 1
    ensures ReachedAt(threshold, h[..|h| - 1], d, i) <==> ReachedAt(threshold, h, d, i)
  {
    assert h[..|h| - 1][..i + 1] == h[..i + 1];
  }

  lemma ReachedSnoc(threshold: int, h: seq<Charge>, d: DriverId)
    requires h != []
    ensures Reached(threshold, h, d) <==>
              Reached(threshold, h[..|h| - 1], d) || (Declines(h[|h| - 1], d) && Streak(h, d) >= threshold)
  {
    var n := |h| - 1;
    assert h[..n + 1] == h;
    assert ReachedAt(threshold, h, d, n) <==> Declines(h[n], d) && Streak(h, d) >= threshold;
    if i :| ReachedAt(threshold, h[..n], d, i) {
      ReachedPrefix(threshold, h, d, i);
    }
    if i :| ReachedAt(threshold, h, d, i) && i < n {
      ReachedPrefix(threshold, h, d, i);
    }
  }

  /**
   The failure count is the streak, the retries are those of the declines, and a
   driver is suspended exactly if some decline brought the streak to the threshold.
   Charges to a wallet, successful or not, leave all of it alone.
   */
  lemma {:induction false} SuspensionByStreak(threshold: int, h: seq<Charge>, d: DriverId)
    ensures FailureCount(Run(threshold, h), d) == Streak(h, d)
    ensures d in Run(threshold, h).suspended <==> Reached(threshold, h, d)
  {
    if h == [] {
    } else {
      SuspensionByStreak(threshold, h[..|h| - 1], d);
      ReachedSnoc(threshold, h, d);
    }
  }

  lemma {:induction false} RetriesAreDeclines(threshold: int, h: seq<Charge>)
    ensures Run(threshold, h).retries == Retries(h)
  {
    if h == [] {
    } else {
      RetriesAreDeclines(threshold, h[..|h| - 1]);
      SuspensionByStreak(threshold, h[..|h| - 1], h[|h| - 1].driver);
      assert Retries(h[..|h| - 1]) + [] == Retries(h[..|h| - 1]);
    }
  }

  /** The n-th decline of a streak is retried after five minutes, half an hour, and from the third on two hours. */
  lemma RetryTimes(threshold: int, h: seq<Charge>, c: Charge)
    requires Declines(c, c.driver)
    ensures var n := Streak(h, c.driver) + 1;
            Run(threshold, h + [c]).retries
            == Run(threshold, h).retries
               + [Retry(c.session, n, c.now + (if n == 1 then 5 * 60 else if n == 2 then 30 * 60 else 120 * 60))]
  {
    assert (h + [c])[..|h|] == h;
    SuspensionByStreak(threshold, h, c.driver);
  }

  /** The last charge of a session that found a usable method. */
  function LastCharge(h: seq<Charge>, session: string): Option<Charge> {
    if h == [] then None
    else if h[|h| - 1].session == session && !h[|h| - 1].via.Unusable? then Some(h[|h| - 1])
    else LastCharge(h[..|h| - 1], session)
  }

  /** A session is charged or failed as its last charge went; it fails only by a declined card. */
  lemma {:induction false} StatusIsLastCharge(threshold: int, h: seq<Charge>, session: string)
    ensures var s, last := Run(threshold, h), LastCharge(h, session);
            && (session in s.statuses <==> last.Some?)
            && (last.Some? ==> (s.statuses[session] == PaymentFailed <==> last.value.via.Card? && last.value.declined))
  {
    if h == [] {
    } else {
      StatusIsLastCharge(threshold, h[..|h| - 1], session);
    }
  }

  /** With a threshold of at least one, a driver is suspended exactly if the streak was ever that long. */
  lemma SuspendedIffStreakReached(threshold: int, h: seq<Charge>, d: DriverId)
    requires threshold >= 1
    ensures d in Run(threshold, h).suspended <==> exists i :: 0 <= i <= |h| && Streak(h[..i], d) >= threshold
  {
    SuspensionByStreak(threshold, h, d);
    if i :| ReachedAt(threshold, h, d, i) {
      assert 0 <= i + 1 <= |h| && Streak(h[..i + 1], d) >= threshold;
    }
    if i :| 0 <= i <= |h| && Streak(h[..i], d) >= threshold {
      LongStreakWasReached(threshold, h, d, i);
    }
  }

  /** A prefix with a long streak has a decline that reached it at or before its end. */
  lemma {:induction false} LongStreakWasReached(threshold: int, h: seq<Charge>, d: DriverId, i: nat)
    requires threshold >= 1 && i <= |h| && Streak(h[..i], d) >= threshold
    ensures Reached(threshold, h, d)
    decreases i
  {
    assert i > 0 && h[..i][..i - 1] == h[..i - 1] && h[..i][i - 1] == h[i - 1];
    if Declines(h[i - 1], d) {
      assert ReachedAt(threshold, h, d, i - 1);
    } else {
      LongStreakWasReached(threshold, h, d, i - 1);
    }
  }

  /** Once suspended, always suspended: nothing in billing lifts it. */
  lemma SuspensionStays(threshold: int, h: seq<Charge>, c: Charge, d: DriverId)
    requires d in Run(threshold, h).suspended
    ensures d in Run(threshold, h + [c]).suspended
  {
    assert (h + [c])[..|h|] == h;
  }

  /** Within a streak attempts count up and the delay to the next one never shrinks. */
  lemma {:induction false} BackoffNeverShrinks(h: seq<Charge>, d: DriverId, i: nat, j: nat)
    requires i < j < |h| && Declines(h[i], d) && Declines(h[j], d)
    requires forall k | i < k < j :: !Succeeds(h[k], d)
    ensures Streak(h[..i + 1], d) < Streak(h[..j + 1], d)
    ensures Backoff(Streak(h[..i + 1], d)) <= Backoff(Streak(h[..j + 1], d))
  {
    StreakHolds(h, d, i + 1, j);
    assert h[..j + 1][..j] == h[..j];
  }

  lemma {:induction false} StreakHolds(h: seq<Charge>, d: DriverId, i: nat, j: nat)
    requires i <= j <= |h| && forall k | i <= k < j :: !Succeeds(h[k], d)
    ensures Streak(h[..i], d) <= Streak(h[..j], d)
    decreases j
  {
    if i == j {
    } else {
      StreakHolds(h, d, i, j - 1);
      assert h[..j][..j - 1] == h[..j - 1];
    }
  }

  // ----- what the provider is asked -----

  predicate ByCard(c: Charge) {
    c.via.Card?
  }

  /** The card charges of a run, in order. */
  function CardCharges(h: seq<Charge>): seq<Charge> {
    if h == [] then [] else CardCharges(h[..|h| - 1]) + if ByCard(h[|h| - 1]) then [h[|h| - 1]] else []
  }

  ghost predicate AskedFor(call: ProviderCall, c: Charge) {
    c.via.Card? && call == ProviderCall(c.via.token, c.amount, c.currency, Wallet.SessionRef(c.session))
  }

  /** The provider is asked once for every card charge, for its amount on its card, and for nothing else. */
  lemma {:induction false} CallsAreCardCharges(threshold: int, h: seq<Charge>)
    ensures var calls, cs := Run(threshold, h).calls, CardCharges(h);
            |calls| == |cs| && forall i | 0 <= i < |cs| :: AskedFor(calls[i], cs[i])
  {
    if h == [] {
    } else {
      CallsAreCardCharges(threshold, h[..|h| - 1]);
    }
  }

  /** Two requests carry one key if and only if they are for one session: a retry is recognised, another session never mistaken for it. */
  lemma KeyNamesSession(threshold: int, h: seq<Charge>, i: nat, j: nat)
    requires i < |CardCharges(h)| && j < |CardCharges(h)|
    ensures |Run(threshold, h).calls| == |CardCharges(h)|
    ensures Run(threshold, h).calls[i].key == Run(threshold, h).calls[j].key <==> CardCharges(h)[i].session == CardCharges(h)[j].session
  {
    CallsAreCardCharges(threshold, h);
    var a, b := CardCharges(h)[i].session, CardCharges(h)[j].session;
    assert AskedFor(Run(threshold, h).calls[i], CardCharges(h)[i]) && AskedFor(Run(threshold, h).calls[j], CardCharges(h)[j]);
    assert Wallet.SessionRef(a)[8..] == a && Wallet.SessionRef(b)[8..] == b;
  }

  // ----- the service -----

  class SessionBillingService {
    const threshold: int
    const ledger: Wallet.InMemoryWalletLedger
    var counts: map<DriverId, nat>
    var suspended: set<DriverId>
    var retries: seq<Retry>
    var statuses: map<string, Status>
    var calls: seq<ProviderCall>
    ghost var history: seq<Charge>

    ghost function Snapshot(): State
      reads this
    {
      State(counts, suspended, retries, statuses, calls)
    }

    ghost predicate Valid()
      reads this, ledger
    {
      ledger.Valid() && Snapshot() == Run(threshold, history)
    }

    constructor (threshold: int)
      ensures Valid() && history == [] && this.threshold == threshold && fresh(ledger) && ledger.history == []
    {
      this.threshold := threshold;
      ledger := new Wallet.InMemoryWalletLedger();
      counts, suspended, retries, statuses, calls, history := map[], {}, [], map[], [], [];
    }

    ghost method Log(c: Charge)
      requires ledger.Valid() && Snapshot() == Step(threshold, Run(threshold, history), c)
      modifies this`history
      ensures Valid() && history == old(history) + [c]
    {
      history := history + [c];
      assert history[..|history| - 1] == old(history);
    }

    /** False stands for the error raised when there is no usable method. */
    method ChargeSession(c: Charge) returns (usable: bool)
      requires Valid()
      modifies this, ledger
      ensures Valid() && history == old(history) + [c]
      ensures usable <==> !c.via.Unusable?
      ensures ledger.history == if c.via.NoMethod? || c.via.WalletBalance?
                                then old(ledger.history) + [Wallet.Deduct(c.wallet, c.amount, c.session)]
                                else old(ledger.history)
      ensures usable ==> c.session in statuses && (statuses[c.session] == PaymentFailed <==> Declines(c, c.driver))
    {
      usable := true;
      if c.via.NoMethod? || c.via.WalletBalance? {
        ledger.DeductCharge(c.wallet, c.amount, c.session);
        statuses := statuses[c.session := Charged];
      } else if c.via.Unusable? {
        usable := false;
      } else {
        calls := calls + [ProviderCall(c.via.token, c.amount, c.currency, "session:" + c.session)];
        if c.declined {
          FailCharge(c);
        } else {
          statuses := statuses[c.session := Charged];
          counts := counts[c.driver := 0];
        }
      }
      Log(c);
    }

    method FailCharge(c: Charge)
      requires c.via.Card? && c.declined
      modifies this`statuses, this`counts, this`retries, this`suspended
      ensures Snapshot() == Step(threshold, old(Snapshot()), c).(calls := calls)
    {
      statuses := statuses[c.session := PaymentFailed];
      var n := (if c.driver in counts then counts[c.driver] else 0) + 1;
      counts := counts[c.driver := n];
      retries := retries + [Retry(c.session, n, c.now + 60 * Backoff(n))];
      if n >= threshold {
        suspended := suspended + {c.driver};
      }
    }
  }
}
