/**
 The wallet ledger: append-only entries, a balance that is always their sum, and
 a top-up webhook that the payment provider may deliver any number of times.
 */
module Wallet {
  import opened Seqs

  type WalletId = nat

  datatype Kind = Topup | ChargeDeduction

  datatype Entry = Entry(wallet: WalletId, amount: int, kind: Kind, reference: string)

  datatype Op =
    | Webhook(wallet: WalletId, pspId: string, amount: int)
    | Deduct(wallet: WalletId, amount: int, session: string)

  predicate HasReference(es: seq<Entry>, w: WalletId, ref: string) {
    exists i | 0 <= i < |es| :: es[i].wallet == w && es[i].reference == ref
  }

  function Balance(es: seq<Entry>, w: WalletId): int {
    if es == [] then 0 else
      Balance(es[..|es| - 1], w) + if es[|es| - 1].wallet == w then es[|es| - 1].amount else 0
  }

  function EntriesFor(es: seq<Entry>, w: WalletId): seq<Entry> {
    if es == [] then [] else
      EntriesFor(es[..|es| - 1], w) + if es[|es| - 1].wallet == w then [es[|es| - 1]] else []
  }

  function SessionRef(session: string): string {
    "session:" + session
  }

  function Step(es: seq<Entry>, op: Op): seq<Entry> {
    match op
    case Webhook(w, pspId, amount) =>
      if HasReference(es, w, pspId) then es else es + [Entry(w, amount, Topup, pspId)]
    case Deduct(w, amount, session) =>
      es + [Entry(w, -amount, ChargeDeduction, SessionRef(session))]
  }

  function Run(h: seq<Op>): seq<Entry> {
    if h == [] then [] else Step(Run(h[..|h| - 1]), h[|h| - 1])
  }

  // ----- the reference, read off the history -----

  predicate DeliveredIn(h: seq<Op>, w: WalletId, pspId: string) {
    exists i | 0 <= i < |h| :: h[i].Webhook? && h[i].wallet == w && h[i].pspId == pspId
  }

  predicate ChargedUnder(h: seq<Op>, w: WalletId, ref: string) {
    exists i | 0 <= i < |h| :: h[i].Deduct? && h[i].wallet == w && "session:" + h[i].session == ref
  }

  /** The provider ids delivered to a wallet, each where it first came, with the amount it came with. */
  function FirstDeliveries(h: seq<Op>, w: WalletId): seq<Op> {
    if h == [] then [] else
      var p, op := h[..|h| - 1], h[|h| - 1];
      FirstDeliveries(p, w)
      + if op.Webhook? && op.wallet == w && !DeliveredIn(p, w, op.pspId) then [op] else []
  }

  function Amounts(ops: seq<Op>): seq<int> {
    seq(|ops|, i requires 0 <= i < |ops| => ops[i].amount)
  }

  function Deductions(h: seq<Op>, w: WalletId): seq<int> {
    if h == [] then [] else
      Deductions(h[..|h| - 1], w)
      + if h[|h| - 1].Deduct? && h[|h| - 1].wallet == w then [h[|h| - 1].amount] else []
  }

  lemma Snoc(h: seq<Op>, op: Op, w: WalletId, ref: string)
    ensures DeliveredIn(h + [op], w, ref) <==> DeliveredIn(h, w, ref) || (op.Webhook? && op.wallet == w && op.pspId == ref)
    ensures ChargedUnder(h + [op], w, ref) <==>
              ChargedUnder(h, w, ref) || (op.Deduct? && op.wallet == w && SessionRef(op.session) == ref)
  {
    var g := h + [op];
    assert g[|h|] == op && forall i | 0 <= i < |h| :: g[i] == h[i];
  }

  lemma HasReferenceSnoc(es: seq<Entry>, e: Entry, w: WalletId, ref: string)
    ensures HasReference(es + [e], w, ref) <==> HasReference(es, w, ref) || (e.wallet == w && e.reference == ref)
  {
    var g := es + [e];
    assert g[|es|] == e && forall i | 0 <= i < |es| :: g[i] == es[i];
  }

  /**
   A webhook finds its id taken exactly when it was delivered before or a charge
   of the same wallet was booked under a session reference equal to it.
   */
  lemma {:induction false} TakenIffSeen(h: seq<Op>, w: WalletId, ref: string)
    ensures HasReference(Run(h), w, ref) <==> DeliveredIn(h, w, ref) || ChargedUnder(h, w, ref)
  {
    if h == [] {
    } else {
      var p, op := h[..|h| - 1], h[|h| - 1];
      TakenIffSeen(p, w, ref);
      assert h == p + [op];
      Snoc(p, op, w, ref);
      var es := Run(p);
      if |Run(h)| > |es| {
        HasReferenceSnoc(es, Run(h)[|es|], w, ref);
      } else {
        assert HasReference(es, op.wallet, op.pspId);
      }
    }
  }

  /** Provider ids and session references of a wallet are kept apart. */
  ghost predicate NoCollision(h: seq<Op>, w: WalletId) {
    forall i, j | 0 <= i < |h| && 0 <= j < |h| && h[i].Webhook? && h[j].Deduct? && h[i].wallet == w && h[j].wallet == w ::
      h[i].pspId != SessionRef(h[j].session)
  }

  lemma BalanceSnoc(es: seq<Entry>, e: Entry, w: WalletId)
    ensures Balance(es + [e], w) == Balance(es, w) + if e.wallet == w then e.amount else 0
  {
    assert (es + [e])[..|es|] == es;
  }

  lemma AmountsSnoc(ops: seq<Op>, op: Op)
    ensures Sum(Amounts(ops + [op])) == Sum(Amounts(ops)) + op.amount
  {
    assert Amounts(ops + [op]) == Amounts(ops) + [op.amount];
    SumSnoc(Amounts(ops), op.amount);
  }

  /** First deliveries that came after a charge had been booked under their id: the ledger takes them for repeats. */
  function LostTopUps(h: seq<Op>, w: WalletId): seq<Op> {
    if h == [] then [] else
      var p, op := h[..|h| - 1], h[|h| - 1];
      LostTopUps(p, w)
      + if op.Webhook? && op.wallet == w && !DeliveredIn(p, w, op.pspId) && ChargedUnder(p, w, op.pspId) then [op] else []
  }

  /**
   In every run a wallet's balance is what its distinct provider ids first brought
   in, less the top-ups lost to a colliding charge, less what its charges took out.
   */
  lemma {:induction false} BalanceAccount(h: seq<Op>, w: WalletId)
    ensures Balance(Run(h), w)
         == Sum(Amounts(FirstDeliveries(h, w))) - Sum(Amounts(LostTopUps(h, w))) - Sum(Deductions(h, w))
  {
    if h == [] {
    } else {
      var p, op := h[..|h| - 1], h[|h| - 1];
      BalanceAccount(p, w);
      if op.wallet != w {
        OtherWallet(h, w);
      } else if op.Deduct? {
        OwnDeduction(h, w);
      } else {
        OwnWebhook(h, w);
      }
    }
  }

  lemma OtherWallet(h: seq<Op>, w: WalletId)
    requires h != [] && h[|h| - 1].wallet != w
    ensures var p := h[..|h| - 1];
            && FirstDeliveries(h, w) == FirstDeliveries(p, w) && LostTopUps(h, w) == LostTopUps(p, w)
            && Deductions(h, w) == Deductions(p, w) && Balance(Run(h), w) == Balance(Run(p), w)
  {
    var p := h[..|h| - 1];
    if |Run(h)| > |Run(p)| {
      BalanceSnoc(Run(p), Run(h)[|Run(p)|], w);
    }
  }

  lemma OwnDeduction(h: seq<Op>, w: WalletId)
    requires h != [] && h[|h| - 1].Deduct? && h[|h| - 1].wallet == w
    ensures var p, op := h[..|h| - 1], h[|h| - 1];
            && FirstDeliveries(h, w) == FirstDeliveries(p, w) && LostTopUps(h, w) == LostTopUps(p, w)
            && Sum(Deductions(h, w)) == Sum(Deductions(p, w)) + op.amount
            && Balance(Run(h), w) == Balance(Run(p), w) - op.amount
  {
    var p, op := h[..|h| - 1], h[|h| - 1];
    SumSnoc(Deductions(p, w), op.amount);
    BalanceSnoc(Run(p), Entry(w, -op.amount, ChargeDeduction, SessionRef(op.session)), w);
  }

  /** A webhook counts once: when its id comes first, unless a charge took the id before. */
  lemma OwnWebhook(h: seq<Op>, w: WalletId)
    requires h != [] && h[|h| - 1].Webhook? && h[|h| - 1].wallet == w
    ensures var p, op := h[..|h| - 1], h[|h| - 1];
            && Deductions(h, w) == Deductions(p, w)
            && Balance(Run(h), w) - Balance(Run(p), w)
               == Sum(Amounts(FirstDeliveries(h, w))) - Sum(Amounts(FirstDeliveries(p, w)))
                  - (Sum(Amounts(LostTopUps(h, w))) - Sum(Amounts(LostTopUps(p, w))))
  {
    var p, op := h[..|h| - 1], h[|h| - 1];
    TakenIffSeen(p, w, op.pspId);
    AmountsSnoc(FirstDeliveries(p, w), op);
    AmountsSnoc(LostTopUps(p, w), op);
    BalanceSnoc(Run(p), Entry(w, op.amount, Topup, op.pspId), w);
    assert FirstDeliveries(p, w) + [] == FirstDeliveries(p, w) && LostTopUps(p, w) + [] == LostTopUps(p, w);
  }

  lemma {:induction false} NoneLost(h: seq<Op>, w: WalletId)
    requires NoCollision(h, w)
    ensures LostTopUps(h, w) == []
  {
    if h == [] {
    } else {
      var p := h[..|h| - 1];
      assert forall i | 0 <= i < |p| :: p[i] == h[i];
      NoneLost(p, w);
    }
  }

  /** With ids kept apart, the balance is what distinct provider ids first brought in less what charges took out. */
  lemma BalanceIsFirstDeliveries(h: seq<Op>, w: WalletId)
    requires NoCollision(h, w)
    ensures Balance(Run(h), w) == Sum(Amounts(FirstDeliveries(h, w))) - Sum(Deductions(h, w))
  {
    BalanceAccount(h, w);
    NoneLost(h, w);
  }

  lemma {:induction false} LossIsPositive(ops: seq<Op>)
    requires ops != [] && forall i | 0 <= i < |ops| :: ops[i].amount > 0
    ensures Sum(Amounts(ops)) > 0
  {
    var front, op := ops[..|ops| - 1], ops[|ops| - 1];
    assert ops == front + [op];
    AmountsSnoc(front, op);
    if front == [] {
    } else {
      LossIsPositive(front);
    }
  }

  /** With positive top-ups the promised balance is met exactly when no first delivery follows a charge under its id. */
  lemma PromiseKeptIffNoneLost(h: seq<Op>, w: WalletId)
    requires forall i | 0 <= i < |LostTopUps(h, w)| :: LostTopUps(h, w)[i].amount > 0
    ensures Balance(Run(h), w) == Sum(Amounts(FirstDeliveries(h, w))) - Sum(Deductions(h, w)) <==> LostTopUps(h, w) == []
  {
    BalanceAccount(h, w);
    if LostTopUps(h, w) != [] {
      LossIsPositive(LostTopUps(h, w));
    }
  }

  // ----- what the ledger shows -----

  /** The entry an operation leaves, if it leaves one. */
  function Leaves(p: seq<Op>, op: Op): seq<Entry> {
    match op
    case Deduct(w, amount, session) => [Entry(w, 0 - amount, ChargeDeduction, "session:" + session)]
    case Webhook(w, pspId, amount) =>
      if DeliveredIn(p, w, pspId) || ChargedUnder(p, w, pspId) then [] else [Entry(w, amount, Topup, pspId)]
  }

  function LeftBy(h: seq<Op>): seq<Entry> {
    if h == [] then [] else LeftBy(h[..|h| - 1]) + Leaves(h[..|h| - 1], h[|h| - 1])
  }

  /**
   The ledger in every run: a deduction under its session for every charge, a top-up under its
   provider id for every delivery whose id is new to the wallet, in order, and nothing else.
   */
  lemma {:induction false} LedgerIs(h: seq<Op>)
    ensures Run(h) == LeftBy(h)
  {
    if h == [] {
    } else {
      var p, op := h[..|h| - 1], h[|h| - 1];
      LedgerIs(p);
      if op.Webhook? {
        TakenIffSeen(p, op.wallet, op.pspId);
      }
    }
  }

  /** Where an id does collide with a charge booked earlier, the top-up is lost: the condition above is needed. */
  lemma CollidingTopUpIsLost(h: seq<Op>, w: WalletId, session: string, amount: int)
    requires ChargedUnder(h, w, SessionRef(session))
    ensures Run(h + [Webhook(w, SessionRef(session), amount)]) == Run(h)
  {
    assert (h + [Webhook(w, SessionRef(session), amount)])[..|h|] == h;
    TakenIffSeen(h, w, SessionRef(session));
  }

  // ----- reordering and repeating deliveries -----

  /** Every delivery of an id to the wallet carries the amount the provider charged. */
  ghost predicate Consistent(h: seq<Op>, w: WalletId, charged: map<string, int>) {
    forall i | 0 <= i < |h| && h[i].Webhook? && h[i].wallet == w :: h[i].pspId in charged && charged[h[i].pspId] == h[i].amount
  }

  lemma {:induction false} FirstDeliveriesDistinct(h: seq<Op>, w: WalletId, charged: map<string, int>)
    requires Consistent(h, w, charged)
    ensures NoDup(FirstDeliveries(h, w))
    ensures forall op :: op in FirstDeliveries(h, w) <==>
              op.Webhook? && op.wallet == w && DeliveredIn(h, w, op.pspId) && op.pspId in charged && op.amount == charged[op.pspId]
  {
    if h == [] {
    } else {
      var p, last := h[..|h| - 1], h[|h| - 1];
      assert h == p + [last];
      assert forall i | 0 <= i < |p| :: p[i] == h[i];
      FirstDeliveriesDistinct(p, w, charged);
      assert FirstDeliveries(p, w) + [] == FirstDeliveries(p, w);
      forall ref ensures DeliveredIn(h, w, ref) <==> DeliveredIn(p, w, ref) || (last.Webhook? && last.wallet == w && last.pspId == ref) {
        Snoc(p, last, w, ref);
      }
    }
  }

  lemma AmountsRemove(ops: seq<Op>, i: nat)
    requires i < |ops|
    ensures Sum(Amounts(ops)) == ops[i].amount + Sum(Amounts(Without(ops, i)))
  {
    SumRemove(Amounts(ops), i);
    assert Without(Amounts(ops), i) == Amounts(Without(ops, i));
  }

  lemma RemoveFromBoth(a: seq<Op>, b: seq<Op>, i: nat, j: nat)
    requires NoDup(a) && NoDup(b) && i < |a| && j < |b| && a[i] == b[j] && forall op :: op in a <==> op in b
    ensures forall op :: op in Without(a, i) <==> op in Without(b, j)
    ensures NoDup(Without(a, i)) && NoDup(Without(b, j))
  {
    forall op ensures op in Without(a, i) <==> op in Without(b, j) {
      RemoveDistinct(a, i, op);
      RemoveDistinct(b, j, op);
    }
    RemoveDistinct(a, i, a[i]);
    RemoveDistinct(b, j, b[j]);
  }

  lemma {:induction false} SameElementsSameSum(a: seq<Op>, b: seq<Op>)
    requires NoDup(a) && NoDup(b) && forall op :: op in a <==> op in b
    ensures Sum(Amounts(a)) == Sum(Amounts(b))
    decreases |a|
  {
    assert b != [] ==> b[0] in b;
    if a == [] {
    } else {
      assert a[0] in b;
      var j :| 0 <= j < |b| && b[j] == a[0];
      RemoveFromBoth(a, b, 0, j);
      SameElementsSameSum(Without(a, 0), Without(b, j));
      AmountsRemove(a, 0);
      AmountsRemove(b, j);
    }
  }

  /**
   Idempotence over runs: two histories that deliver the same provider ids to a
   wallet, in any order and any number of times, and charge it the same amounts,
   leave it with the same balance.
   */
  lemma BalanceIgnoresRedelivery(h: seq<Op>, g: seq<Op>, w: WalletId, charged: map<string, int>)
    requires NoCollision(h, w) && NoCollision(g, w) && Consistent(h, w, charged) && Consistent(g, w, charged)
    requires forall ref :: DeliveredIn(h, w, ref) <==> DeliveredIn(g, w, ref)
    requires multiset(Deductions(h, w)) == multiset(Deductions(g, w))
    ensures Balance(Run(h), w) == Balance(Run(g), w)
  {
    BalanceIsFirstDeliveries(h, w);
    BalanceIsFirstDeliveries(g, w);
    FirstDeliveriesDistinct(h, w, charged);
    FirstDeliveriesDistinct(g, w, charged);
    SameElementsSameSum(FirstDeliveries(h, w), FirstDeliveries(g, w));
    SumPermutation(Deductions(h, w), Deductions(g, w));
  }

  // ----- wallets do not affect each other -----

  function OnWallet(h: seq<Op>, w: WalletId): seq<Op> {
    if h == [] then [] else OnWallet(h[..|h| - 1], w) + if h[|h| - 1].wallet == w then [h[|h| - 1]] else []
  }

  lemma EntriesSnoc(es: seq<Entry>, e: Entry, w: WalletId)
    ensures EntriesFor(es + [e], w) == if e.wallet == w then EntriesFor(es, w) + [e] else EntriesFor(es, w)
  {
    assert (es + [e])[..|es|] == es;
  }

  lemma {:induction false} OwnBalance(es: seq<Entry>, w: WalletId)
    ensures Balance(EntriesFor(es, w), w) == Balance(es, w)
  {
    if es == [] {
    } else {
      var p, e := es[..|es| - 1], es[|es| - 1];
      assert es == p + [e];
      OwnBalance(p, w);
      EntriesSnoc(p, e, w);
      BalanceSnoc(p, e, w);
      if e.wallet == w {
        BalanceSnoc(EntriesFor(p, w), e, w);
      }
    }
  }

  lemma {:induction false} OwnReference(es: seq<Entry>, w: WalletId, ref: string)
    ensures HasReference(EntriesFor(es, w), w, ref) <==> HasReference(es, w, ref)
  {
    if es == [] {
    } else {
      var p, e := es[..|es| - 1], es[|es| - 1];
      assert es == p + [e];
      OwnReference(p, w, ref);
      EntriesSnoc(p, e, w);
      HasReferenceSnoc(p, e, w, ref);
      HasReferenceSnoc(EntriesFor(p, w), e, w, ref);
    }
  }

  /** One operation, seen from one wallet. */
  lemma OwnStep(es: seq<Entry>, op: Op, w: WalletId)
    ensures EntriesFor(Step(es, op), w) == if op.wallet == w then Step(EntriesFor(es, w), op) else EntriesFor(es, w)
  {
    var es' := Step(es, op);
    if op.Webhook? {
      OwnReference(es, w, op.pspId);
    }
    if |es'| > |es| {
      EntriesSnoc(es, es'[|es|], w);
    }
  }

  lemma RunSnoc(h: seq<Op>, op: Op)
    ensures Run(h + [op]) == Step(Run(h), op)
  {
    assert (h + [op])[..|h|] == h;
  }

  lemma {:induction false} OwnRun(h: seq<Op>, w: WalletId)
    ensures Run(OnWallet(h, w)) == EntriesFor(Run(h), w)
  {
    if h == [] {
    } else {
      var p, op := h[..|h| - 1], h[|h| - 1];
      OwnRun(p, w);
      OwnStep(Run(p), op, w);
      if op.wallet == w {
        RunSnoc(OnWallet(p, w), op);
      } else {
        assert OnWallet(h, w) == OnWallet(p, w);
      }
    }
  }

  /** The entries of a wallet, and so its balance, are those of a run of its own operations alone. */
  lemma WalletsAreIndependent(h: seq<Op>, w: WalletId)
    ensures Run(OnWallet(h, w)) == EntriesFor(Run(h), w)
    ensures Balance(Run(OnWallet(h, w)), w) == Balance(Run(h), w)
  {
    OwnRun(h, w);
    OwnBalance(Run(h), w);
  }

  // ----- the ledger object -----

  class InMemoryWalletLedger {
    var entries: seq<Entry>
    ghost var history: seq<Op>

    ghost predicate Valid()
      reads this
    {
      entries == Run(history)
    }

    constructor ()
      ensures Valid() && history == []
    {
      entries, history := [], [];
    }

    method HandleTopupWebhook(w: WalletId, pspId: string, amount: int)
      requires Valid()
      modifies this
      ensures Valid() && history == old(history) + [Webhook(w, pspId, amount)]
    {
      var taken := false;
      for i := 0 to |entries|
        invariant taken <==> exists k | 0 <= k < i :: entries[k].wallet == w && entries[k].reference == pspId
      {
        if entries[i].wallet == w && entries[i].reference == pspId {
          taken := true;
        }
      }
      if !taken {
        entries := entries + [Entry(w, amount, Topup, pspId)];
      }
      history := history + [Webhook(w, pspId, amount)];
      assert history[..|history| - 1] == old(history);
    }

    method DeductCharge(w: WalletId, amount: int, session: string)
      requires Valid()
      modifies this
      ensures Valid() && history == old(history) + [Deduct(w, amount, session)]
    {
      entries := entries + [Entry(w, -amount, ChargeDeduction, "session:" + session)];
      history := history + [Deduct(w, amount, session)];
      assert history[..|history| - 1] == old(history);
    }

    method GetBalance(w: WalletId) returns (b: int)
      requires Valid()
      ensures b == Balance(Run(history), w)
    {
      b := 0;
      for i := 0 to |entries|
        invariant b == Balance(entries[..i], w)
      {
        assert entries[..i + 1][..i] == entries[..i];
        if entries[i].wallet == w {
          b := b + entries[i].amount;
        }
      }
      assert entries[..|entries|] == entries;
    }
  }
}
