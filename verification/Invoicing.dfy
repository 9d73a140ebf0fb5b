/**
 Invoices over half-open billing periods and their life after issue, where only
 credit notes may change what is owed.
 */
module Invoicing {
  import opened Seqs

  type InvoiceId = nat

  datatype SessionRecord = SessionRecord(session: string, account: nat, at: int, amount: int)

  /** The amount of the sessions in [start, end). */
  function PeriodTotal(ss: seq<SessionRecord>, start: int, end: int): int {
    if ss == [] then 0 else
      var x := ss[|ss| - 1];
      PeriodTotal(ss[..|ss| - 1], start, end) + if start <= x.at < end then x.amount else 0
  }

  /** What each session adds to a period: its amount if the period has begun and not ended, nothing otherwise. */
  function InPeriodAmounts(ss: seq<SessionRecord>, start: int, end: int): seq<int> {
    seq(|ss|, i requires 0 <= i < |ss| => if ss[i].at >= start && ss[i].at < end then ss[i].amount else 0)
  }

  /** A period's total is the sum of the amounts of the sessions in it. */
  lemma {:induction false} PeriodTotalIsSum(ss: seq<SessionRecord>, start: int, end: int)
    ensures PeriodTotal(ss, start, end) == Sum(InPeriodAmounts(ss, start, end))
  {
    if ss == [] {
    } else {
      PeriodTotalIsSum(ss[..|ss| - 1], start, end);
      var amounts := InPeriodAmounts(ss, start, end);
      assert amounts[..|amounts| - 1] == InPeriodAmounts(ss[..|ss| - 1], start, end);
    }
  }

  // ----- periods partition the span -----

  ghost predicate Ordered(bounds: seq<int>) {
    forall i, j | 0 <= i < j < |bounds| :: bounds[i] <= bounds[j]
  }

  /** The totals of the periods between successive boundaries, added up. */
  function TotalOfPeriods(ss: seq<SessionRecord>, bounds: seq<int>): int
    requires bounds != []
  {
    if |bounds| == 1 then 0 else
      var n := |bounds| - 1;
      TotalOfPeriods(ss, bounds[..n]) + PeriodTotal(ss, bounds[n - 1], bounds[n])
  }

  lemma {:induction false} AdjacentPeriods(ss: seq<SessionRecord>, a: int, b: int, c: int)
    requires a <= b <= c
    ensures PeriodTotal(ss, a, b) + PeriodTotal(ss, b, c) == PeriodTotal(ss, a, c)
  {
    if ss == [] {
    } else {
      AdjacentPeriods(ss[..|ss| - 1], a, b, c);
    }
  }

  lemma {:induction false} EmptyPeriod(ss: seq<SessionRecord>, a: int)
    ensures PeriodTotal(ss, a, a) == 0
  {
    if ss == [] {
    } else {
      EmptyPeriod(ss[..|ss| - 1], a);
    }
  }

  /** However a span is cut into periods, the invoices add up to the span: nothing is billed twice or missed. */
  lemma {:induction false} PeriodsConserve(ss: seq<SessionRecord>, bounds: seq<int>)
    requires bounds != [] && Ordered(bounds)
    ensures TotalOfPeriods(ss, bounds) == PeriodTotal(ss, bounds[0], bounds[|bounds| - 1])
  {
    var n := |bounds| - 1;
    if n == 0 {
      EmptyPeriod(ss, bounds[0]);
    } else {
      PeriodsConserve(ss, bounds[..n]);
      AdjacentPeriods(ss, bounds[0], bounds[n - 1], bounds[n]);
    }
  }

  predicate InPeriod(bounds: seq<int>, i: int, at: int) {
    0 <= i < |bounds| - 1 && bounds[i] <= at < bounds[i + 1]
  }

  /** A session inside the span falls in exactly one period. */
  lemma {:induction false} OnePeriodEach(bounds: seq<int>, at: int)
    requires bounds != [] && Ordered(bounds)
    ensures (exists i :: InPeriod(bounds, i, at)) <==> bounds[0] <= at < bounds[|bounds| - 1]
    ensures forall i, j :: InPeriod(bounds, i, at) && InPeriod(bounds, j, at) ==> i == j
  {
    var n := |bounds| - 1;
    if bounds[0] <= at < bounds[n] {
      if bounds[n - 1] <= at {
        assert InPeriod(bounds, n - 1, at);
      } else {
        OnePeriodEach(bounds[..n], at);
        var i :| InPeriod(bounds[..n], i, at);
        assert InPeriod(bounds, i, at);
      }
    }
  }

  // ----- the life of an invoice -----

  datatype Status = Draft | Issued | Overdue

  /** Whom an invoice is for, and over which period. */
  datatype Header = Header(tenant: nat, account: nat, start: int, end: int)

  datatype Invoice = Invoice(header: Header, status: Status, total: int, dueAt: Option<int>)

  datatype Adjustment = Adjustment(note: nat, invoice: InvoiceId, amount: int, reason: string)

  datatype State = State(invoices: map<InvoiceId, Invoice>, adjustments: seq<Adjustment>)

  datatype Op =
    | Create(id: InvoiceId, header: Header, total: int, dueAt: Option<int>)
    | Issue(id: InvoiceId)
    | EditDraft(id: InvoiceId, total: int)
    | Credit(id: InvoiceId, note: nat, amount: int, reason: string)
    | MarkOverdue(id: InvoiceId, now: int)

  const EMPTY := State(map[], [])

  /** Create draws an unused id; every other operation on an unknown id raises and changes nothing. */
  predicate Known(s: State, op: Op) {
    op.Create? <==> op.id !in s.invoices
  }

  function Step(s: State, op: Op): State {
    if !Known(s, op) then s else
    match op
    case Create(id, header, total, dueAt) => s.(invoices := s.invoices[id := Invoice(header, Draft, total, dueAt)])
    case Issue(id) => s.(invoices := s.invoices[id := s.invoices[id].(status := Issued)])
    case EditDraft(id, total) =>
      if s.invoices[id].status == Draft then s.(invoices := s.invoices[id := s.invoices[id].(total := total)]) else s
    case Credit(id, note, amount, reason) =>
      State(s.invoices[id := s.invoices[id].(total := s.invoices[id].total + amount)],
            s.adjustments + [Adjustment(note, id, amount, reason)])
    case MarkOverdue(id, now) =>
      var v := s.invoices[id];
      if v.status == Issued && v.dueAt.Some? && now > v.dueAt.value
      then s.(invoices := s.invoices[id := v.(status := Overdue)]) else s
  }

  function RunFrom(s: State, h: seq<Op>): State {
    if h == [] then s else Step(RunFrom(s, h[..|h| - 1]), h[|h| - 1])
  }

  function Run(h: seq<Op>): State {
    RunFrom(EMPTY, h)
  }

  // ----- the reference, read off the history -----

  predicate CreatedIn(h: seq<Op>, id: InvoiceId) {
    exists i | 0 <= i < |h| :: h[i].Create? && h[i].id == id
  }

  /** Issued at some point after it was created. */
  predicate IssuedIn(h: seq<Op>, id: InvoiceId) {
    if h == [] then false else
      var p, op := h[..|h| - 1], h[|h| - 1];
      IssuedIn(p, id) || (op == Issue(id) && CreatedIn(p, id))
  }

  function CreditsOn(h: seq<Op>, id: InvoiceId): int {
    if h == [] then 0 else
      CreditsOn(h[..|h| - 1], id) + if h[|h| - 1].Credit? && h[|h| - 1].id == id then h[|h| - 1].amount else 0
  }

  lemma CreatedSnoc(h: seq<Op>, op: Op, id: InvoiceId)
    ensures CreatedIn(h + [op], id) <==> CreatedIn(h, id) || (op.Create? && op.id == id)
  {
    var g := h + [op];
    assert g[|h|] == op && forall i | 0 <= i < |h| :: g[i] == h[i];
  }

  /** An invoice is a draft exactly until it is first issued, and never again. */
  lemma {:induction false} DraftUntilIssued(h: seq<Op>, id: InvoiceId)
    ensures id in Run(h).invoices <==> CreatedIn(h, id)
    ensures id in Run(h).invoices ==> (Run(h).invoices[id].status == Draft <==> !IssuedIn(h, id))
    ensures IssuedIn(h, id) ==> CreatedIn(h, id)
  {
    if h == [] {
    } else {
      var p, op := h[..|h| - 1], h[|h| - 1];
      DraftUntilIssued(p, id);
      assert h == p + [op];
      CreatedSnoc(p, op, id);
    }
  }

  /** How the invoice was created. */
  function CreationOf(h: seq<Op>, id: InvoiceId): Option<Op> {
    if h == [] then None else
      var p, op := h[..|h| - 1], h[|h| - 1];
      if CreationOf(p, id).Some? then CreationOf(p, id)
      else if op.Create? && op.id == id then Some(op)
      else None
  }

  /** Since the invoice was last issued it was found past its due date. */
  predicate FoundOverdue(h: seq<Op>, id: InvoiceId, dueAt: Option<int>) {
    if h == [] then false else
      var p, op := h[..|h| - 1], h[|h| - 1];
      if op.id != id then FoundOverdue(p, id, dueAt)
      else match op
        case Issue(_) => false
        case MarkOverdue(_, now) => FoundOverdue(p, id, dueAt) || (IssuedIn(p, id) && dueAt.Some? && dueAt.value < now)
        case _ => FoundOverdue(p, id, dueAt)
  }

  ghost predicate StatusOk(v: Invoice, creation: Op, issued: bool, overdue: bool) {
    && creation.Create? && v.header == creation.header && v.dueAt == creation.dueAt
    && v.status == (if !issued then Draft else if overdue then Overdue else Issued)
    && (overdue ==> issued)
  }

  /**
   In every run an invoice keeps tenant, account, period and due date; it is overdue if and only if, since it was
   last issued, it was looked at after its due date, and otherwise issued once it has been.
   */
  lemma {:induction false} StatusIs(h: seq<Op>, id: InvoiceId)
    ensures id in Run(h).invoices <==> CreationOf(h, id).Some?
    ensures id in Run(h).invoices ==>
              && CreationOf(h, id).value.Create?
              && StatusOk(Run(h).invoices[id], CreationOf(h, id).value, IssuedIn(h, id),
                          FoundOverdue(h, id, CreationOf(h, id).value.dueAt))
  {
    if h == [] {
    } else {
      var p, op := h[..|h| - 1], h[|h| - 1];
      StatusIs(p, id);
      DraftUntilIssued(p, id);
      DraftUntilIssued(h, id);
      if CreationOf(p, id).None? {
        NeverOverdue(p, id, if op.Create? then op.dueAt else None);
      }
    }
  }

  lemma {:induction false} NeverOverdue(h: seq<Op>, id: InvoiceId, dueAt: Option<int>)
    requires !IssuedIn(h, id)
    ensures !FoundOverdue(h, id, dueAt)
  {
    if h == [] {
    } else {
      NeverOverdue(h[..|h| - 1], id, dueAt);
    }
  }

  /** From a state in which it has left draft, an invoice's total moves by the credit notes on it and by nothing else. */
  lemma {:induction false} OnlyCreditsMoveTotal(s: State, h: seq<Op>, id: InvoiceId)
    requires id in s.invoices && s.invoices[id].status != Draft
    ensures id in RunFrom(s, h).invoices && RunFrom(s, h).invoices[id].status != Draft
    ensures RunFrom(s, h).invoices[id].total == s.invoices[id].total + CreditsOn(h, id)
  {
    if h == [] {
    } else {
      OnlyCreditsMoveTotal(s, h[..|h| - 1], id);
    }
  }

  lemma {:induction false} RunSplits(s: State, h: seq<Op>, g: seq<Op>)
    ensures RunFrom(s, h + g) == RunFrom(RunFrom(s, h), g)
  {
    if g == [] {
      assert h + g == h;
    } else {
      RunSplits(s, h, g[..|g| - 1]);
      assert (h + g)[..|h + g| - 1] == h + g[..|g| - 1];
    }
  }

  /** Once issued, the total stays the total at that point plus every credit note since. */
  lemma TotalIsIssuedPlusCredits(h: seq<Op>, g: seq<Op>, id: InvoiceId)
    requires IssuedIn(h, id)
    ensures id in Run(h).invoices && id in Run(h + g).invoices && Run(h + g).invoices[id].status != Draft
    ensures Run(h + g).invoices[id].total == Run(h).invoices[id].total + CreditsOn(g, id)
  {
    DraftUntilIssued(h, id);
    RunSplits(EMPTY, h, g);
    OnlyCreditsMoveTotal(Run(h), g, id);
  }

  // ----- the total against the recorded adjustments -----

  /** The amounts recorded against one invoice. */
  function RecordedOn(adjustments: seq<Adjustment>, id: InvoiceId): seq<int> {
    if adjustments == [] then [] else
      var a := adjustments[|adjustments| - 1];
      RecordedOn(adjustments[..|adjustments| - 1], id) + if a.invoice == id then [a.amount] else []
  }

  /** The credit notes that came after the invoice was created, draft or not. */
  function AcceptedCredits(h: seq<Op>, id: InvoiceId): seq<int> {
    if h == [] then [] else
      var p, op := h[..|h| - 1], h[|h| - 1];
      AcceptedCredits(p, id) + if op.Credit? && op.id == id && CreatedIn(p, id) then [op.amount] else []
  }

  /** Every credit note accepted is on record, and nothing else is. */
  lemma {:induction false} AdjustmentsAreCredits(h: seq<Op>, id: InvoiceId)
    ensures RecordedOn(Run(h).adjustments, id) == AcceptedCredits(h, id)
  {
    if h == [] {
    } else {
      var p, op := h[..|h| - 1], h[|h| - 1];
      AdjustmentsAreCredits(p, id);
      DraftUntilIssued(p, op.id);
      var before, after := Run(p).adjustments, Run(h).adjustments;
      if after != before {
        assert after[..|after| - 1] == before;
      }
    }
  }

  /** The operation gives the invoice its total: its creation, or an edit while it is a draft. */
  predicate SetsTotal(p: seq<Op>, op: Op, id: InvoiceId) {
    op.id == id && (if CreatedIn(p, id) then op.EditDraft? && !IssuedIn(p, id) else op.Create?)
  }

  /** Where that last happened. */
  function LastSet(h: seq<Op>, id: InvoiceId): Option<nat> {
    if h == [] then None
    else if SetsTotal(h[..|h| - 1], h[|h| - 1], id) then Some(|h| - 1)
    else LastSet(h[..|h| - 1], id)
  }

  function SetTotal(op: Op): int {
    if op.Create? || op.EditDraft? then op.total else 0
  }

  lemma {:induction false} LastSetExists(h: seq<Op>, id: InvoiceId)
    ensures LastSet(h, id).Some? <==> CreatedIn(h, id)
    ensures LastSet(h, id).Some? ==> LastSet(h, id).value < |h|
  {
    if h == [] {
    } else {
      var p, op := h[..|h| - 1], h[|h| - 1];
      LastSetExists(p, id);
      assert h == p + [op];
      CreatedSnoc(p, op, id);
    }
  }

  /** Credit notes recorded up to a position of the run. */
  function CreditedBefore(h: seq<Op>, k: nat, id: InvoiceId): int
    requires k <= |h|
  {
    Sum(AcceptedCredits(h[..k], id))
  }

  /** One operation that does not set the total moves it by the credit note it accepts, if any. */
  lemma TotalStep(p: seq<Op>, op: Op, id: InvoiceId)
    requires CreatedIn(p, id) && !SetsTotal(p, op, id)
    ensures id in Run(p).invoices && id in Step(Run(p), op).invoices
    ensures Step(Run(p), op).invoices[id].total
         == Run(p).invoices[id].total + if op.Credit? && op.id == id then op.amount else 0
  {
    DraftUntilIssued(p, id);
  }

  lemma CreditsSnoc(p: seq<Op>, op: Op, id: InvoiceId)
    requires CreatedIn(p, id)
    ensures Sum(AcceptedCredits(p + [op], id))
         == Sum(AcceptedCredits(p, id)) + if op.Credit? && op.id == id then op.amount else 0
  {
    assert (p + [op])[..|p|] == p;
    if op.Credit? {
      SumSnoc(AcceptedCredits(p, id), op.amount);
    }
    assert AcceptedCredits(p, id) + [] == AcceptedCredits(p, id);
  }

  /** At every moment an invoice's total is what it was last set to, plus the credit notes recorded since. */
  lemma {:induction false} TotalIsLastSetPlusCredits(h: seq<Op>, id: InvoiceId)
    requires CreatedIn(h, id)
    ensures id in Run(h).invoices && LastSet(h, id).Some? && LastSet(h, id).value < |h|
    ensures var k := LastSet(h, id).value;
            Run(h).invoices[id].total == SetTotal(h[k]) + CreditedBefore(h, |h|, id) - CreditedBefore(h, k, id)
  {
    var p, op := h[..|h| - 1], h[|h| - 1];
    assert h == p + [op] && h[..|h|] == h;
    LastSetExists(h, id);
    LastSetExists(p, id);
    CreatedSnoc(p, op, id);
    DraftUntilIssued(p, id);
    if SetsTotal(p, op, id) {
      assert AcceptedCredits(h, id) == AcceptedCredits(p, id);
    } else {
      TotalIsLastSetPlusCredits(p, id);
      TotalStep(p, op, id);
      CreditsSnoc(p, op, id);
      var k := LastSet(p, id).value;
      assert p[..k] == h[..k] && p[..|p|] == p && p[k] == h[k];
    }
  }

  /**
   The total is what it was last set to plus all the credit notes on record if and
   only if those recorded before it was last set cancel out: an edit forgets them.
   */
  lemma TotalMeetsRecordIff(h: seq<Op>, id: InvoiceId)
    requires CreatedIn(h, id)
    ensures id in Run(h).invoices && LastSet(h, id).Some? && LastSet(h, id).value < |h|
    ensures var k := LastSet(h, id).value;
            Run(h).invoices[id].total == SetTotal(h[k]) + Sum(RecordedOn(Run(h).adjustments, id))
            <==> Sum(RecordedOn(Run(h[..k]).adjustments, id)) == 0
  {
    TotalIsLastSetPlusCredits(h, id);
    AdjustmentsAreCredits(h, id);
    AdjustmentsAreCredits(h[..LastSet(h, id).value], id);
    assert h[..|h|] == h;
  }

  lemma RunSnoc(h: seq<Op>, op: Op)
    ensures Run(h + [op]) == Step(Run(h), op)
  {
    assert (h + [op])[..|h|] == h;
  }

  /** A credit note on a draft that is edited afterwards: on record, and not in the total. */
  lemma EditForgetsCredit(id: InvoiceId, header: Header, total: int, note: nat, amount: int, reason: string, edited: int)
    ensures var s := Run([] + [Create(id, header, total, None)] + [Credit(id, note, amount, reason)] + [EditDraft(id, edited)]);
            && id in s.invoices && s.invoices[id].total == edited
            && s.adjustments == [Adjustment(note, id, amount, reason)]
  {
    var h := [] + [Create(id, header, total, None)];
    RunSnoc([], Create(id, header, total, None));
    RunSnoc(h, Credit(id, note, amount, reason));
    RunSnoc(h + [Credit(id, note, amount, reason)], EditDraft(id, edited));
    assert Run(h) == State(map[id := Invoice(header, Draft, total, None)], []);
  }

  // ----- the services -----

  class InvoiceService {
    var invoices: map<InvoiceId, Invoice>
    var adjustments: seq<Adjustment>
    ghost var history: seq<Op>

    ghost predicate Valid()
      reads this
    {
      State(invoices, adjustments) == Run(history)
    }

    constructor ()
      ensures Valid() && history == []
    {
      invoices, adjustments, history := map[], [], [];
    }

    ghost method Log(op: Op)
      requires State(invoices, adjustments) == Step(Run(history), op)
      modifies this`history
      ensures Valid() && history == old(history) + [op]
    {
      history := history + [op];
      assert history[..|history| - 1] == old(history);
    }

    method GenerateForPeriod(id: InvoiceId, header: Header, ss: seq<SessionRecord>, dueAt: Option<int>)
      requires Valid() && id !in invoices
      modifies this
      ensures Valid() && history == old(history) + [Create(id, header, PeriodTotal(ss, header.start, header.end), dueAt)]
      ensures id in invoices && invoices[id] == Invoice(header, Draft, PeriodTotal(ss, header.start, header.end), dueAt)
    {
      var total := 0;
      for i := 0 to |ss|
        invariant total == PeriodTotal(ss[..i], header.start, header.end)
      {
        assert ss[..i + 1][..i] == ss[..i];
        if header.start <= ss[i].at < header.end {
          total := total + ss[i].amount;
        }
      }
      assert ss[..|ss|] == ss;
      invoices := invoices[id := Invoice(header, Draft, total, dueAt)];
      Log(Create(id, header, total, dueAt));
    }

    /** False, or None below, stands for the error of an unknown invoice. */
    method IssueInvoice(id: InvoiceId) returns (found: bool)
      requires Valid()
      modifies this
      ensures Valid() && history == old(history) + [Issue(id)]
      ensures found <==> id in old(invoices)
    {
      found := id in invoices;
      if found {
        invoices := invoices[id := invoices[id].(status := Issued)];
      }
      Log(Issue(id));
    }

    /** Refused unless the invoice exists and is still a draft. */
    method Edit(id: InvoiceId, total: int) returns (edited: bool)
      requires Valid()
      modifies this
      ensures Valid() && history == old(history) + [EditDraft(id, total)]
      ensures edited <==> CreatedIn(old(history), id) && !IssuedIn(old(history), id)
      ensures !edited ==> invoices == old(invoices)
    {
      DraftUntilIssued(history, id);
      edited := id in invoices && invoices[id].status == Draft;
      if edited {
        invoices := invoices[id := invoices[id].(total := total)];
      }
      Log(EditDraft(id, total));
    }

    method ApplyCreditNote(id: InvoiceId, note: nat, amount: int, reason: string) returns (a: Option<Adjustment>)
      requires Valid()
      modifies this
      ensures Valid() && history == old(history) + [Credit(id, note, amount, reason)]
      ensures a == if id in old(invoices) then Some(Adjustment(note, id, amount, reason)) else None
    {
      a := None;
      if id in invoices {
        a := Some(Adjustment(note, id, amount, reason));
        adjustments := adjustments + [a.value];
        invoices := invoices[id := invoices[id].(total := invoices[id].total + amount)];
      }
      Log(Credit(id, note, amount, reason));
    }

    method MarkOverdueIfPastDue(id: InvoiceId, now: int) returns (found: bool)
      requires Valid()
      modifies this
      ensures Valid() && history == old(history) + [MarkOverdue(id, now)]
      ensures found <==> id in old(invoices)
    {
      found := id in invoices;
      if found {
        var v := invoices[id];
        if v.status == Issued && v.dueAt.Some? && now > v.dueAt.value {
          invoices := invoices[id := v.(status := Overdue)];
        }
      }
      Log(MarkOverdue(id, now));
    }
  }
}
