/**
 Batching of meter readings. The buffer is swapped out before the write is
 awaited, so further readings may arrive while earlier batches are still being
 written, and writes may finish in any order or fail.
 */
module MeterValues {
  import opened Seqs

  datatype Reading = Reading(
    tenant: nat, transaction: nat, charger: string, ts: int, measurand: string, value: real, unit: string)

  datatype Config = Config(maxBatchSize: int, flushInterval: real)

  datatype Progress = InFlight | Written | Lost

  datatype Write = Write(rows: seq<Reading>, progress: Progress)

  /** `writes` lists the batches in the order they left the buffer, `sink` in the order they were written. */
  datatype State = State(buffer: seq<Reading>, openedAt: Option<real>, writes: seq<Write>, sink: seq<seq<Reading>>)

  /** Add carries the two clock readings it may take: when the buffer opens and when its age is checked. */
  datatype Event =
    | Add(row: Reading, openedNow: real, checked: real)
    | Flush
    | WriteDone(batch: nat)
    | WriteFails(batch: nat)

  const EMPTY := State([], None, [], [])

  function SwapOut(s: State): State {
    if s.buffer == [] then s
    else s.(buffer := [], openedAt := None, writes := s.writes + [Write(s.buffer, InFlight)])
  }

  function Push(s: State, row: Reading, now: real): State {
    s.(buffer := s.buffer + [row], openedAt := if s.buffer == [] then Some(now) else s.openedAt)
  }

  predicate ShouldFlush(cfg: Config, s: State, now: real) {
    || |s.buffer| >= cfg.maxBatchSize
    || (s.openedAt.Some? && now - s.openedAt.value >= cfg.flushInterval)
  }

  predicate Enabled(s: State, e: Event) {
    e.WriteDone? || e.WriteFails? ==> e.batch < |s.writes| && s.writes[e.batch].progress == InFlight
  }

  function Step(cfg: Config, s: State, e: Event): State {
    if !Enabled(s, e) then s else
    match e
    case Add(row, openedNow, checked) =>
      var s1 := Push(s, row, openedNow);
      if ShouldFlush(cfg, s1, checked) then SwapOut(s1) else s1
    case Flush => SwapOut(s)
    case WriteDone(k) =>
      s.(writes := s.writes[k := Write(s.writes[k].rows, Written)], sink := s.sink + [s.writes[k].rows])
    case WriteFails(k) =>
      s.(writes := s.writes[k := Write(s.writes[k].rows, Lost)])
  }

  function Run(cfg: Config, h: seq<Event>): State {
    if h == [] then EMPTY else Step(cfg, Run(cfg, h[..|h| - 1]), h[|h| - 1])
  }

  function Added(h: seq<Event>): seq<Reading> {
    if h == [] then [] else
      Added(h[..|h| - 1]) + (if h[|h| - 1].Add? then [h[|h| - 1].row] else [])
  }

  function Flatten(batches: seq<seq<Reading>>): seq<Reading> {
    if batches == [] then [] else Flatten(batches[..|batches| - 1]) + batches[|batches| - 1]
  }

  function Batches(ws: seq<Write>): seq<seq<Reading>> {
    seq(|ws|, i requires 0 <= i < |ws| => ws[i].rows)
  }

  /** How often a row occurs in the batches in one state of progress. */
  ghost function RowsBy(ws: seq<Write>, p: Progress, row: Reading): int {
    if ws == [] then 0 else RowsBy(ws[..|ws| - 1], p, row) + Part(ws[|ws| - 1], p, row)
  }

  ghost function Part(w: Write, p: Progress, row: Reading): int {
    if w.progress == p then multiset(w.rows)[row] else 0
  }

  /** Rows leave the buffer in the order they came, in batches of one to maxBatchSize rows. */
  ghost predicate Ordered(cfg: Config, s: State, added: seq<Reading>) {
    && Flatten(Batches(s.writes)) + s.buffer == added
    && (forall k | 0 <= k < |s.writes| :: 1 <= |s.writes[k].rows| <= Max(1, cfg.maxBatchSize))
    && |s.buffer| < Max(1, cfg.maxBatchSize)
    && (s.openedAt.Some? <==> s.buffer != [])
  }

  ghost predicate SinkOk(s: State, row: Reading) {
    multiset(Flatten(s.sink))[row] == RowsBy(s.writes, Written, row)
  }

  lemma SwapOutFlattens(s: State)
    ensures Flatten(Batches(SwapOut(s).writes)) + SwapOut(s).buffer == Flatten(Batches(s.writes)) + s.buffer
  {
    if s.buffer != [] {
      var ws := SwapOut(s).writes;
      assert Batches(ws)[..|s.writes|] == Batches(s.writes);
    }
  }

  lemma SwapOutRows(s: State, p: Progress, row: Reading)
    requires p != InFlight
    ensures RowsBy(SwapOut(s).writes, p, row) == RowsBy(s.writes, p, row)
  {
    if s.buffer != [] {
      assert SwapOut(s).writes[..|s.writes|] == s.writes;
    }
  }

  /** Replacing batch k moves the count by that batch alone. */
  lemma {:induction false} RowsByUpdate(ws: seq<Write>, k: nat, w: Write, p: Progress, row: Reading)
    requires k < |ws|
    ensures RowsBy(ws[k := w], p, row) == RowsBy(ws, p, row) - Part(ws[k], p, row) + Part(w, p, row)
  {
    var n := |ws| - 1;
    if k == n {
      assert ws[k := w][..n] == ws[..n];
    } else {
      assert ws[k := w][..n] == ws[..n][k := w];
      RowsByUpdate(ws[..n], k, w, p, row);
    }
  }

  lemma SwapOutKeepsOrder(cfg: Config, s: State, added: seq<Reading>)
    requires Flatten(Batches(s.writes)) + s.buffer == added && |s.buffer| <= Max(1, cfg.maxBatchSize)
    requires forall k | 0 <= k < |s.writes| :: 1 <= |s.writes[k].rows| <= Max(1, cfg.maxBatchSize)
    requires s.openedAt.Some? <==> s.buffer != []
    ensures Ordered(cfg, SwapOut(s), added)
  {
    SwapOutFlattens(s);
  }

  lemma AddKeepsOrder(cfg: Config, s: State, e: Event, added: seq<Reading>)
    requires Ordered(cfg, s, added) && e.Add?
    ensures Ordered(cfg, Step(cfg, s, e), added + [e.row])
  {
    var s1 := Push(s, e.row, e.openedNow);
    var out := Flatten(Batches(s.writes));
    assert out + (s.buffer + [e.row]) == (out + s.buffer) + [e.row];
    if ShouldFlush(cfg, s1, e.checked) {
      SwapOutKeepsOrder(cfg, s1, added + [e.row]);
    }
  }

  lemma FlushKeepsOrder(cfg: Config, s: State, e: Event, added: seq<Reading>)
    requires Ordered(cfg, s, added) && e.Flush?
    ensures Ordered(cfg, Step(cfg, s, e), added)
  {
    SwapOutKeepsOrder(cfg, s, added);
  }

  lemma WriteKeepsOrder(cfg: Config, s: State, e: Event, added: seq<Reading>)
    requires Ordered(cfg, s, added) && (e.WriteDone? || e.WriteFails?)
    ensures Ordered(cfg, Step(cfg, s, e), added)
  {
    assert Batches(Step(cfg, s, e).writes) == Batches(s.writes);
  }

  lemma {:induction false} OrderKept(cfg: Config, h: seq<Event>)
    ensures Ordered(cfg, Run(cfg, h), Added(h))
  {
    if h == [] {
    } else {
      var s, e := Run(cfg, h[..|h| - 1]), h[|h| - 1];
      OrderKept(cfg, h[..|h| - 1]);
      match e
      case Add(_, _, _) => AddKeepsOrder(cfg, s, e, Added(h[..|h| - 1]));
      case Flush => FlushKeepsOrder(cfg, s, e, Added(h[..|h| - 1]));
      case _ => WriteKeepsOrder(cfg, s, e, Added(h[..|h| - 1]));
    }
  }

  lemma FlattenSnoc(bs: seq<seq<Reading>>, b: seq<Reading>)
    ensures Flatten(bs + [b]) == Flatten(bs) + b
  {
    assert (bs + [b])[..|bs|] == bs;
  }

  lemma SinkStep(cfg: Config, s: State, e: Event, row: Reading)
    requires SinkOk(s, row)
    ensures SinkOk(Step(cfg, s, e), row)
  {
    if Enabled(s, e) {
      match e
      case Add(r, openedNow, _) => SwapOutRows(Push(s, r, openedNow), Written, row);
      case Flush => SwapOutRows(s, Written, row);
      case WriteDone(k) =>
        RowsByUpdate(s.writes, k, Write(s.writes[k].rows, Written), Written, row);
        FlattenSnoc(s.sink, s.writes[k].rows);
      case WriteFails(k) =>
        RowsByUpdate(s.writes, k, Write(s.writes[k].rows, Lost), Written, row);
    }
  }

  lemma {:induction false} SinkHoldsWritten(cfg: Config, h: seq<Event>, row: Reading)
    ensures SinkOk(Run(cfg, h), row)
  {
    if h == [] {
    } else {
      SinkHoldsWritten(cfg, h[..|h| - 1], row);
      SinkStep(cfg, Run(cfg, h[..|h| - 1]), h[|h| - 1], row);
    }
  }

  lemma {:induction false} RowsSplit(ws: seq<Write>, row: Reading)
    ensures multiset(Flatten(Batches(ws)))[row] == RowsBy(ws, Written, row) + RowsBy(ws, InFlight, row) + RowsBy(ws, Lost, row)
  {
    if ws == [] {
    } else {
      var p, w := ws[..|ws| - 1], ws[|ws| - 1];
      RowsSplit(p, row);
      assert Batches(ws) == Batches(p) + [w.rows];
      FlattenSnoc(Batches(p), w.rows);
    }
  }

  /**
   Conservation in every interleaving: each row added is buffered, in flight,
   written or lost with a failed write, and as often as it was added.
   */
  lemma RowsAreConserved(cfg: Config, h: seq<Event>, row: Reading)
    ensures var s := Run(cfg, h);
            multiset(Added(h))[row] == multiset(Flatten(s.sink))[row] + RowsBy(s.writes, InFlight, row)
                                       + RowsBy(s.writes, Lost, row) + multiset(s.buffer)[row]
  {
    OrderKept(cfg, h);
    SinkHoldsWritten(cfg, h, row);
    RowsSplit(Run(cfg, h).writes, row);
  }

  lemma RunSnoc(cfg: Config, h: seq<Event>, e: Event)
    ensures Run(cfg, h + [e]) == Step(cfg, Run(cfg, h), e)
    ensures Added(h + [e]) == Added(h) + if e.Add? then [e.row] else []
  {
    assert (h + [e])[..|h|] == h;
  }

  /** A batch in the given state of progress holds the row exactly if the row counts there. */
  lemma {:induction false} RowsByPositive(ws: seq<Write>, p: Progress, row: Reading)
    ensures RowsBy(ws, p, row) >= 0
    ensures RowsBy(ws, p, row) > 0 <==> exists k | 0 <= k < |ws| :: ws[k].progress == p && row in ws[k].rows
  {
    if ws == [] {
    } else {
      var front := ws[..|ws| - 1];
      RowsByPositive(front, p, row);
      assert forall k | 0 <= k < |front| :: front[k] == ws[k];
    }
  }

  ghost predicate Any(ws: seq<Write>, p: Progress) {
    exists k | 0 <= k < |ws| :: ws[k].progress == p
  }

  ghost predicate NoneIn(ws: seq<Write>, p: Progress) {
    forall row :: RowsBy(ws, p, row) == 0
  }

  /** With batches that are not empty, a state of progress holds no row if and only if it has no batch. */
  lemma NoRowsIffNone(cfg: Config, s: State, added: seq<Reading>, p: Progress)
    requires Ordered(cfg, s, added)
    ensures NoneIn(s.writes, p) <==> !Any(s.writes, p)
  {
    if k :| 0 <= k < |s.writes| && s.writes[k].progress == p {
      RowsByPositive(s.writes, p, s.writes[k].rows[0]);
    } else {
      forall row ensures RowsBy(s.writes, p, row) == 0 {
        RowsByPositive(s.writes, p, row);
      }
    }
  }

  /** A write under way at that point of the run fails. */
  ghost predicate FailsAt(cfg: Config, h: seq<Event>, i: int) {
    0 <= i < |h| && h[i].WriteFails? && Enabled(Run(cfg, h[..i]), h[i])
  }

  ghost predicate SomeFails(cfg: Config, h: seq<Event>) {
    exists i :: FailsAt(cfg, h, i)
  }

  lemma SwapOutLost(s: State)
    ensures Any(SwapOut(s).writes, Lost) <==> Any(s.writes, Lost)
  {
    var ws := SwapOut(s).writes;
    assert forall k | 0 <= k < |s.writes| :: ws[k] == s.writes[k];
  }

  lemma LostStep(cfg: Config, s: State, e: Event)
    ensures Any(Step(cfg, s, e).writes, Lost) <==> Any(s.writes, Lost) || (e.WriteFails? && Enabled(s, e))
  {
    if Enabled(s, e) {
      var ws := Step(cfg, s, e).writes;
      match e
      case Add(r, openedNow, _) => SwapOutLost(Push(s, r, openedNow));
      case Flush => SwapOutLost(s);
      case WriteDone(k) => assert forall i | 0 <= i < |ws| && i != k :: ws[i] == s.writes[i];
      case WriteFails(k) => assert ws[k].progress == Lost;
    }
  }

  lemma {:induction false} LostIffSomeFails(cfg: Config, h: seq<Event>)
    ensures Any(Run(cfg, h).writes, Lost) <==> SomeFails(cfg, h)
  {
    if h == [] {
    } else {
      var n := |h| - 1;
      LostIffSomeFails(cfg, h[..n]);
      LostStep(cfg, Run(cfg, h[..n]), h[n]);
      if i :| FailsAt(cfg, h[..n], i) {
        assert h[..n][..i] == h[..i];
        assert FailsAt(cfg, h, i);
      }
      if i :| FailsAt(cfg, h, i) && i < n {
        assert h[..n][..i] == h[..i];
        assert FailsAt(cfg, h[..n], i);
      }
      assert FailsAt(cfg, h, n) <==> h[n].WriteFails? && Enabled(Run(cfg, h[..n]), h[n]);
    }
  }

  /** No row is lost if and only if no write under way ever failed: a failed batch is not put back. */
  lemma NothingLostIff(cfg: Config, h: seq<Event>)
    ensures NoneIn(Run(cfg, h).writes, Lost) <==> !SomeFails(cfg, h)
  {
    OrderKept(cfg, h);
    NoRowsIffNone(cfg, Run(cfg, h), Added(h), Lost);
    LostIffSomeFails(cfg, h);
  }

  /** With batches of one, a reading leaves at once. */
  lemma SingleAdd(a: Reading)
    ensures Run(Config(1, 2.0), [Add(a, 0.0, 0.0)]) == State([], None, [Write([a], InFlight)], [])
    ensures Added([Add(a, 0.0, 0.0)]) == [a]
  {
    var h := [Add(a, 0.0, 0.0)];
    assert h[..0] == [] && EMPTY.buffer + [a] == [a];
    assert Added(h[..0]) == [];
  }

  /** One reading, one failed write: the reading is neither written nor buffered. */
  lemma FailedWriteLoses(a: Reading)
    ensures var h := [Add(a, 0.0, 0.0)] + [WriteFails(0)];
            Run(Config(1, 2.0), h).buffer == [] && Run(Config(1, 2.0), h).sink == [] && Added(h) == [a]
            && RowsBy(Run(Config(1, 2.0), h).writes, Lost, a) == 1
  {
    SingleAdd(a);
    RunSnoc(Config(1, 2.0), [Add(a, 0.0, 0.0)], WriteFails(0));
    var w := Write([a], Lost);
    assert Part(w, Lost, a) == 1 && [w][..0] == [] && RowsBy([], Lost, a) == 0;
    assert RowsBy([w], Lost, a) == RowsBy([w][..0], Lost, a) + Part([w][0], Lost, a);
  }

  // ----- what a flush leaves unwritten -----

  lemma SameCounts(a: seq<Reading>, b: seq<Reading>)
    requires forall row :: multiset(a)[row] == multiset(b)[row]
    ensures multiset(a) == multiset(b)
  {
  }

  /** With nothing buffered, a row has been written as often as it was added unless a batch in flight or lost holds it. */
  lemma RowIsWrittenIff(cfg: Config, h: seq<Event>, row: Reading)
    requires Run(cfg, h).buffer == []
    ensures var s := Run(cfg, h);
            multiset(Flatten(s.sink))[row] == multiset(Added(h))[row]
            <==> RowsBy(s.writes, InFlight, row) == 0 && RowsBy(s.writes, Lost, row) == 0
  {
    RowsAreConserved(cfg, h, row);
    RowsByPositive(Run(cfg, h).writes, InFlight, row);
    RowsByPositive(Run(cfg, h).writes, Lost, row);
  }

  /**
   After a flush everything added so far has been written if and only if every
   batch has: the flush awaits its own batch, not those that left the buffer before.
   */
  lemma FlushedIsWrittenIff(cfg: Config, h: seq<Event>)
    requires Run(cfg, h).buffer == []
    ensures multiset(Flatten(Run(cfg, h).sink)) == multiset(Added(h))
       <==> !Any(Run(cfg, h).writes, InFlight) && !Any(Run(cfg, h).writes, Lost)
  {
    OrderKept(cfg, h);
    NoRowsIffNone(cfg, Run(cfg, h), Added(h), InFlight);
    NoRowsIffNone(cfg, Run(cfg, h), Added(h), Lost);
    CountsMeetIff(Run(cfg, h).writes, Flatten(Run(cfg, h).sink), Added(h)) by {
      forall row
        ensures multiset(Flatten(Run(cfg, h).sink))[row] == multiset(Added(h))[row]
           <==> RowsBy(Run(cfg, h).writes, InFlight, row) == 0 && RowsBy(Run(cfg, h).writes, Lost, row) == 0
      {
        RowIsWrittenIff(cfg, h, row);
      }
    }
  }

  lemma CountsMeetIff(ws: seq<Write>, written: seq<Reading>, added: seq<Reading>)
    requires forall row :: multiset(written)[row] == multiset(added)[row]
                      <==> RowsBy(ws, InFlight, row) == 0 && RowsBy(ws, Lost, row) == 0
    ensures multiset(written) == multiset(added) <==> NoneIn(ws, InFlight) && NoneIn(ws, Lost)
  {
    if NoneIn(ws, InFlight) && NoneIn(ws, Lost) {
      forall row ensures multiset(written)[row] == multiset(added)[row] {
        assert RowsBy(ws, InFlight, row) == 0 && RowsBy(ws, Lost, row) == 0;
      }
      SameCounts(written, added);
    }
    if multiset(written) == multiset(added) {
      forall row ensures RowsBy(ws, InFlight, row) == 0 && RowsBy(ws, Lost, row) == 0 {
        assert multiset(written)[row] == multiset(added)[row];
      }
    }
  }

  /** If later batches, at most one, are written, all are settled exactly if the earlier ones are. */
  lemma SettledIff(before: seq<Write>, after: seq<Write>)
    requires |before| <= |after| <= |before| + 1 && after[..|before|] == before
    requires |after| > |before| ==> after[|before|].progress == Written
    ensures !Any(after, InFlight) && !Any(after, Lost) <==> forall k | 0 <= k < |before| :: before[k].progress == Written
  {
    assert forall k | 0 <= k < |before| :: after[k] == before[k];
    if !Any(after, InFlight) && !Any(after, Lost) {
      forall k | 0 <= k < |before| ensures before[k].progress == Written {
        assert after[k].progress != InFlight && after[k].progress != Lost;
      }
    }
  }

  /** With the buffer empty and the newest batch written, all is written exactly if the batches before it are. */
  lemma FlushCoversEarlier(cfg: Config, h: seq<Event>, before: seq<Write>)
    requires var ws := Run(cfg, h).writes;
             && Run(cfg, h).buffer == [] && |before| <= |ws| <= |before| + 1 && ws[..|before|] == before
             && (|ws| > |before| ==> ws[|before|].progress == Written)
    ensures multiset(Flatten(Run(cfg, h).sink)) == multiset(Added(h))
       <==> forall k | 0 <= k < |before| :: before[k].progress == Written
  {
    FlushedIsWrittenIff(cfg, h);
    SettledIff(before, Run(cfg, h).writes);
  }

  /** A flush that finds its rows already swapped out returns while they are still being written. */
  lemma FlushOutrunsWrite(a: Reading)
    ensures var h := [Add(a, 0.0, 0.0)] + [Flush];
            Run(Config(1, 2.0), h).buffer == [] && Run(Config(1, 2.0), h).sink == [] && Added(h) == [a]
  {
    SingleAdd(a);
    RunSnoc(Config(1, 2.0), [Add(a, 0.0, 0.0)], Flush);
  }

  /** Batches respect the size limit and keep the order of arrival; the buffer stays below the limit between calls. */
  lemma BatchesAreBounded(cfg: Config, h: seq<Event>)
    ensures var s := Run(cfg, h);
            && Flatten(Batches(s.writes)) + s.buffer == Added(h)
            && (forall k | 0 <= k < |s.writes| :: 1 <= |s.writes[k].rows| <= Max(1, cfg.maxBatchSize))
            && |s.buffer| < Max(1, cfg.maxBatchSize)
  {
    OrderKept(cfg, h);
  }

  /** A reading that stays buffered leaves the buffer younger than the flush interval. */
  lemma BufferIsYoung(cfg: Config, h: seq<Event>, row: Reading, openedNow: real, checked: real)
    ensures var s := Step(cfg, Run(cfg, h), Add(row, openedNow, checked));
            s.buffer != [] ==> s.openedAt.Some? && checked - s.openedAt.value < cfg.flushInterval
  {
    OrderKept(cfg, h);
  }

  // ----- when a batch leaves -----

  /** An add sends the buffer off if and only if it fills it, or finds it older than the flush interval; no sooner. */
  lemma AddFlushesIff(cfg: Config, s: State, row: Reading, openedNow: real, checked: real)
    requires s.buffer != [] ==> s.openedAt.Some?
    ensures var s' := Step(cfg, s, Add(row, openedNow, checked));
            var since := if s.buffer == [] then openedNow else s.openedAt.value;
            if |s.buffer| + 1 >= cfg.maxBatchSize || checked - since >= cfg.flushInterval
            then s'.buffer == [] && s'.writes == s.writes + [Write(s.buffer + [row], InFlight)]
            else s'.buffer == s.buffer + [row] && s'.writes == s.writes && s'.openedAt == Some(since)
  {
  }

  /** A flush sends off whatever is buffered, and only that. */
  lemma FlushSendsAll(cfg: Config, s: State)
    ensures var s' := Step(cfg, s, Flush);
            s'.buffer == [] && s'.writes == if s.buffer == [] then s.writes else s.writes + [Write(s.buffer, InFlight)]
  {
  }

  /** The add at k opened the buffer, and it holds what was added from there on. */
  ghost predicate OpenedBy(cfg: Config, h: seq<Event>, k: int) {
    && 0 <= k < |h| && h[k].Add?
    && Added(h[..k]) + Run(cfg, h).buffer == Added(h)
    && Run(cfg, h).openedAt == Some(h[k].openedNow)
  }

  lemma OtherStepsKeepBuffer(cfg: Config, s: State, e: Event)
    requires !e.Add? && Step(cfg, s, e).buffer != []
    ensures Step(cfg, s, e).buffer == s.buffer && Step(cfg, s, e).openedAt == s.openedAt
  {
  }

  lemma OpenerStays(cfg: Config, p: seq<Event>, e: Event, k: int)
    requires OpenedBy(cfg, p, k) && Run(cfg, p).buffer != [] && Step(cfg, Run(cfg, p), e).buffer != []
    ensures OpenedBy(cfg, p + [e], k)
  {
    var h := p + [e];
    RunSnoc(cfg, p, e);
    assert h[..k] == p[..k] && h[k] == p[k];
    if e.Add? {
      AddFlushesIff(cfg, Run(cfg, p), e.row, e.openedNow, e.checked);
      assert Added(p[..k]) + (Run(cfg, p).buffer + [e.row]) == (Added(p[..k]) + Run(cfg, p).buffer) + [e.row];
    } else {
      OtherStepsKeepBuffer(cfg, Run(cfg, p), e);
      assert Added(h) == Added(p);
    }
  }

  /** The age of a buffer is counted from the add that put the first of its rows in. */
  lemma {:induction false} BufferHasOpener(cfg: Config, h: seq<Event>)
    requires Run(cfg, h).buffer != []
    ensures exists k :: OpenedBy(cfg, h, k)
  {
    var n := |h| - 1;
    var p, e := h[..n], h[n];
    assert h == p + [e];
    OrderKept(cfg, p);
    if Run(cfg, p).buffer == [] {
      assert e.Add?;
      AddFlushesIff(cfg, Run(cfg, p), e.row, e.openedNow, e.checked);
      assert OpenedBy(cfg, h, n);
    } else {
      BufferHasOpener(cfg, p);
      var k :| OpenedBy(cfg, p, k);
      OpenerStays(cfg, p, e, k);
    }
  }

  /** Every write that finishes is the oldest unwritten one: true when calls are made one after the other. */
  ghost predicate InTurn(cfg: Config, h: seq<Event>) {
    forall i | 0 <= i < |h| && h[i].WriteDone? && Enabled(Run(cfg, h[..i]), h[i]) :: h[i].batch == |Run(cfg, h[..i]).sink|
  }

  ghost predicate SinkInOrder(s: State) {
    |s.sink| <= |s.writes| && s.sink == Batches(s.writes)[..|s.sink|]
  }

  lemma SinkOrderStep(cfg: Config, s: State, e: Event)
    requires SinkInOrder(s) && (e.WriteDone? && Enabled(s, e) ==> e.batch == |s.sink|)
    ensures SinkInOrder(Step(cfg, s, e))
  {
    var s' := Step(cfg, s, e);
    if e.WriteDone? || e.WriteFails? {
      assert Batches(s'.writes) == Batches(s.writes);
    } else {
      assert Batches(s'.writes)[..|s.writes|] == Batches(s.writes);
    }
  }

  lemma {:induction false} FlattenPrefix(bs: seq<seq<Reading>>, n: nat)
    requires n <= |bs|
    ensures Flatten(bs[..n]) <= Flatten(bs)
  {
    if n == |bs| {
      assert bs[..n] == bs;
    } else {
      FlattenPrefix(bs[..|bs| - 1], n);
      assert bs[..|bs| - 1][..n] == bs[..n];
    }
  }

  lemma {:induction false} SinkOrderKept(cfg: Config, h: seq<Event>)
    requires InTurn(cfg, h)
    ensures SinkInOrder(Run(cfg, h))
  {
    if h == [] {
    } else {
      var p := h[..|h| - 1];
      assert forall i | 0 <= i < |p| :: p[i] == h[i] && p[..i] == h[..i];
      SinkOrderKept(cfg, p);
      SinkOrderStep(cfg, Run(cfg, p), h[|h| - 1]);
    }
  }

  /** When writes finish in turn, what has been written is the readings so far, in order, up to some point. */
  lemma WritesInTurnKeepOrder(cfg: Config, h: seq<Event>)
    requires InTurn(cfg, h)
    ensures Flatten(Run(cfg, h).sink) <= Added(h)
  {
    SinkOrderKept(cfg, h);
    OrderKept(cfg, h);
    FlattenPrefix(Batches(Run(cfg, h).writes), |Run(cfg, h).sink|);
  }

  lemma {:induction false} FlattenGrows(bs: seq<seq<Reading>>, i: nat, j: nat)
    requires i < j <= |bs| && forall k | 0 <= k < |bs| :: bs[k] != []
    ensures |Flatten(bs[..i])| < |Flatten(bs[..j])|
  {
    assert bs[..j][..j - 1] == bs[..j - 1];
    if i == j - 1 {
    } else {
      FlattenGrows(bs, i, j - 1);
    }
  }

  /** Where a row of a batch stands among those that left the buffer. */
  lemma RowStands(bs: seq<seq<Reading>>, k: nat, t: nat)
    requires k < |bs| && t < |bs[k]|
    ensures |Flatten(bs[..k])| + t < |Flatten(bs)| && Flatten(bs)[|Flatten(bs[..k])| + t] == bs[k][t]
  {
    assert bs[..k + 1][..k] == bs[..k];
    FlattenPrefix(bs, k + 1);
    assert Flatten(bs[..k + 1]) == Flatten(bs[..k]) + bs[k];
  }

  /** Among distinct rows, a batch that continues the written ones is the next in turn. */
  lemma NextInTurn(bs: seq<seq<Reading>>, rest: seq<Reading>, m: nat, k: nat)
    requires m <= |bs| && k < |bs| && (forall i | 0 <= i < |bs| :: bs[i] != []) && NoDup(Flatten(bs) + rest)
    requires Flatten(bs[..m]) + bs[k] <= Flatten(bs) + rest
    ensures k == m
  {
    var all := Flatten(bs) + rest;
    RowStands(bs, k, 0);
    assert (Flatten(bs[..m]) + bs[k])[|Flatten(bs[..m])|] == bs[k][0];
    assert all[|Flatten(bs[..m])|] == all[|Flatten(bs[..k])|];
    if m < k {
      FlattenGrows(bs, m, k);
    } else if k < m {
      FlattenGrows(bs, k, m);
    }
  }

  /** Nothing is written that was not added. */
  lemma WrittenWasAdded(cfg: Config, h: seq<Event>, row: Reading)
    requires row !in Added(h)
    ensures row !in Flatten(Run(cfg, h).sink)
  {
    RowsAreConserved(cfg, h, row);
    RowsByPositive(Run(cfg, h).writes, InFlight, row);
    RowsByPositive(Run(cfg, h).writes, Lost, row);
  }

  /** A step appends to the sink, and only where it finishes a write. */
  lemma SinkGrows(cfg: Config, s: State, e: Event)
    ensures Flatten(s.sink) <= Flatten(Step(cfg, s, e).sink)
    ensures e.Add? ==> Step(cfg, s, e).sink == s.sink
  {
    if e.WriteDone? && Enabled(s, e) {
      FlattenSnoc(s.sink, s.writes[e.batch].rows);
    }
  }

  lemma ShorterPrefix(before: seq<Reading>, added: seq<Reading>, row: Reading)
    requires before <= added + [row] && row !in before
    ensures before <= added
  {
    var full := added + [row];
    assert full[|added|] == row;
    assert before != full && before == full[..|before|];
    assert |before| <= |added|;
    assert full[..|before|] == added[..|before|];
  }

  lemma SinkPrefixBack(cfg: Config, p: seq<Event>, e: Event)
    requires NoDup(Added(p + [e])) && Flatten(Run(cfg, p + [e]).sink) <= Added(p + [e])
    ensures NoDup(Added(p)) && Flatten(Run(cfg, p).sink) <= Added(p)
  {
    RunSnoc(cfg, p, e);
    SinkGrows(cfg, Run(cfg, p), e);
    if e.Add? {
      NoDupSnoc(Added(p), e.row);
      WrittenWasAdded(cfg, p, e.row);
      ShorterPrefix(Flatten(Run(cfg, p).sink), Added(p), e.row);
    } else {
      assert Added(p + [e]) == Added(p);
    }
  }

  lemma DoneIsNext(cfg: Config, s: State, e: Event, added: seq<Reading>)
    requires Ordered(cfg, s, added) && SinkInOrder(s) && NoDup(added) && e.WriteDone? && Enabled(s, e)
    requires Flatten(Step(cfg, s, e).sink) <= added
    ensures e.batch == |s.sink|
  {
    FlattenSnoc(s.sink, s.writes[e.batch].rows);
    NextInTurn(Batches(s.writes), s.buffer, |s.sink|, e.batch);
  }

  lemma {:induction false} OrderMeansInTurn(cfg: Config, h: seq<Event>)
    requires NoDup(Added(h)) && Flatten(Run(cfg, h).sink) <= Added(h)
    ensures InTurn(cfg, h)
  {
    if h == [] {
    } else {
      var n := |h| - 1;
      var p, e := h[..n], h[n];
      assert h == p + [e];
      SinkPrefixBack(cfg, p, e);
      OrderMeansInTurn(cfg, p);
      SinkOrderKept(cfg, p);
      OrderKept(cfg, p);
      if e.WriteDone? && Enabled(Run(cfg, p), e) {
        DoneIsNext(cfg, Run(cfg, p), e, Added(p));
      }
      assert forall i | 0 <= i < n :: p[i] == h[i] && p[..i] == h[..i];
    }
  }

  /** What has been written of distinct rows is all of them up to some point if and only if writes finish in turn. */
  lemma PrefixIffInTurn(cfg: Config, h: seq<Event>)
    requires NoDup(Added(h))
    ensures Flatten(Run(cfg, h).sink) <= Added(h) <==> InTurn(cfg, h)
  {
    if InTurn(cfg, h) {
      WritesInTurnKeepOrder(cfg, h);
    } else if Flatten(Run(cfg, h).sink) <= Added(h) {
      OrderMeansInTurn(cfg, h);
    }
  }

  // ----- order among the rows that do get written -----

  /** The batches in the order their writes finished. */
  function DoneBatches(cfg: Config, h: seq<Event>): seq<nat> {
    if h == [] then [] else
      var p, e := h[..|h| - 1], h[|h| - 1];
      DoneBatches(cfg, p) + if e.WriteDone? && Enabled(Run(cfg, p), e) then [e.batch] else []
  }

  ghost predicate Ascending(ns: seq<nat>) {
    forall i, j | 0 <= i < j < |ns| :: ns[i] < ns[j]
  }

  /** Rows come in the order they have among those added. */
  ghost predicate InOrderOf(rows: seq<Reading>, added: seq<Reading>) {
    forall i, j, p, q | 0 <= i < j < |rows| && 0 <= p < |added| && 0 <= q < |added| && added[p] == rows[i] && added[q] == rows[j] ::
      p < q
  }

  ghost predicate Within(ks: seq<nat>, n: nat) {
    forall i | 0 <= i < |ks| :: ks[i] < n
  }

  function Pick(bs: seq<seq<Reading>>, ks: seq<nat>): seq<seq<Reading>>
    requires Within(ks, |bs|)
  {
    seq(|ks|, i requires 0 <= i < |ks| => bs[ks[i]])
  }

  /** Batches that have left the buffer keep their rows and their place. */
  lemma BatchesStay(cfg: Config, s: State, e: Event)
    ensures Batches(s.writes) <= Batches(Step(cfg, s, e).writes)
  {
    var s' := Step(cfg, s, e);
    if e.WriteDone? || e.WriteFails? {
      assert Batches(s'.writes) == Batches(s.writes);
    } else {
      assert Batches(s'.writes)[..|s.writes|] == Batches(s.writes);
    }
  }

  /** The sink holds exactly the finished batches, in the order they finished. */
  lemma {:induction false} SinkIsPicked(cfg: Config, h: seq<Event>)
    ensures Within(DoneBatches(cfg, h), |Run(cfg, h).writes|)
    ensures Run(cfg, h).sink == Pick(Batches(Run(cfg, h).writes), DoneBatches(cfg, h))
  {
    if h == [] {
    } else {
      SinkIsPicked(cfg, h[..|h| - 1]);
      BatchesStay(cfg, Run(cfg, h[..|h| - 1]), h[|h| - 1]);
    }
  }

  /** Where the rows of the batches picked stand among all rows. */
  function Places(bs: seq<seq<Reading>>, ks: seq<nat>): seq<nat>
    requires Within(ks, |bs|)
  {
    if ks == [] then [] else
      var front, k := ks[..|ks| - 1], ks[|ks| - 1];
      Places(bs, front) + Block(|Flatten(bs[..k])|, |bs[k]|)
  }

  function Block(start: nat, len: nat): seq<nat> {
    seq(len, t requires 0 <= t < len => start + t)
  }

  ghost predicate StandAt(rows: seq<Reading>, all: seq<Reading>, places: seq<nat>) {
    |places| == |rows| && forall i | 0 <= i < |rows| :: places[i] < |all| && all[places[i]] == rows[i]
  }

  lemma BlockStands(bs: seq<seq<Reading>>, k: nat)
    requires k < |bs|
    ensures StandAt(bs[k], Flatten(bs), Block(|Flatten(bs[..k])|, |bs[k]|))
  {
    forall t | 0 <= t < |bs[k]|
      ensures |Flatten(bs[..k])| + t < |Flatten(bs)| && Flatten(bs)[|Flatten(bs[..k])| + t] == bs[k][t]
    {
      RowStands(bs, k, t);
    }
  }

  lemma StandConcat(rows: seq<Reading>, more: seq<Reading>, all: seq<Reading>, ps: seq<nat>, qs: seq<nat>)
    requires StandAt(rows, all, ps) && StandAt(more, all, qs)
    ensures StandAt(rows + more, all, ps + qs)
  {
  }

  lemma {:induction false} PlacesStand(bs: seq<seq<Reading>>, ks: seq<nat>)
    requires Within(ks, |bs|)
    ensures StandAt(Flatten(Pick(bs, ks)), Flatten(bs), Places(bs, ks))
  {
    if ks == [] {
    } else {
      var front, k := ks[..|ks| - 1], ks[|ks| - 1];
      PlacesStand(bs, front);
      assert Pick(bs, ks) == Pick(bs, front) + [bs[k]];
      FlattenSnoc(Pick(bs, front), bs[k]);
      BlockStands(bs, k);
      StandConcat(Flatten(Pick(bs, front)), bs[k], Flatten(bs), Places(bs, front), Block(|Flatten(bs[..k])|, |bs[k]|));
    }
  }

  lemma AscendingBlock(ns: seq<nat>, start: nat, len: nat)
    requires len > 0
    ensures Ascending(ns + Block(start, len)) <==> Ascending(ns) && (ns != [] ==> ns[|ns| - 1] < start)
  {
    var all := ns + Block(start, len);
    assert forall i | |ns| <= i < |all| :: all[i] == start + (i - |ns|);
    assert forall i | 0 <= i < |ns| :: all[i] == ns[i];
    assert all[|ns|] == start;
  }

  lemma AscendingSnoc(ns: seq<nat>, n: nat)
    ensures Ascending(ns + [n]) <==> Ascending(ns) && (ns != [] ==> ns[|ns| - 1] < n)
  {
    assert Block(n, 1) == [n];
    AscendingBlock(ns, n, 1);
  }

  lemma EndsWhereNextStarts(bs: seq<seq<Reading>>, k: nat)
    requires k < |bs|
    ensures |Flatten(bs[..k + 1])| == |Flatten(bs[..k])| + |bs[k]|
  {
    assert bs[..k + 1][..k] == bs[..k];
  }

  /** A batch ends before another starts exactly if it left the buffer before it. */
  lemma BeforeIff(bs: seq<seq<Reading>>, j: nat, k: nat)
    requires j < |bs| && k < |bs| && forall i | 0 <= i < |bs| :: bs[i] != []
    ensures |Flatten(bs[..j + 1])| <= |Flatten(bs[..k])| <==> j < k
  {
    if j + 1 < k {
      FlattenGrows(bs, j + 1, k);
    } else if k <= j {
      FlattenGrows(bs, k, j + 1);
    }
  }

  /** One batch more, in numbers: `end` is where the last one ends, `start` where this one starts. */
  lemma PlacesStep(ps: seq<nat>, ks: seq<nat>, end: int, start: nat, len: nat, k: nat)
    requires len > 0 && (Ascending(ps) <==> Ascending(ks)) && (ps == [] <==> ks == [])
    requires ks != [] ==> ps[|ps| - 1] == end - 1 && (end <= start <==> ks[|ks| - 1] < k)
    ensures Ascending(ps + Block(start, len)) <==> Ascending(ks + [k])
    ensures (ps + Block(start, len))[|ps| + len - 1] == start + len - 1
  {
    AscendingBlock(ps, start, len);
    AscendingSnoc(ks, k);
  }

  lemma {:induction false} PlacesAscendIff(bs: seq<seq<Reading>>, ks: seq<nat>)
    requires Within(ks, |bs|) && forall i | 0 <= i < |bs| :: bs[i] != []
    ensures Ascending(Places(bs, ks)) <==> Ascending(ks)
    ensures Places(bs, ks) == [] <==> ks == []
    ensures ks != [] ==> Places(bs, ks)[|Places(bs, ks)| - 1] == |Flatten(bs[..ks[|ks| - 1] + 1])| - 1
  {
    if ks == [] {
    } else {
      var front, k := ks[..|ks| - 1], ks[|ks| - 1];
      PlacesAscendIff(bs, front);
      EndsWhereNextStarts(bs, k);
      var end := if front == [] then 0 else |Flatten(bs[..front[|front| - 1] + 1])|;
      if front != [] {
        BeforeIff(bs, front[|front| - 1], k);
      }
      assert ks == front + [k];
      PlacesStep(Places(bs, front), front, end, |Flatten(bs[..k])|, |bs[k]|, k);
    }
  }

  lemma OrderIsOfPlaces(rows: seq<Reading>, added: seq<Reading>, places: seq<nat>)
    requires NoDup(added) && StandAt(rows, added, places)
    ensures InOrderOf(rows, added) <==> Ascending(places)
  {
    if InOrderOf(rows, added) {
      forall i, j | 0 <= i < j < |places| ensures places[i] < places[j] {
        assert added[places[i]] == rows[i] && added[places[j]] == rows[j];
      }
    }
  }

  /**
   Distinct rows are written in the order they were added if and only if writes
   finish in the order their batches left the buffer, whatever is lost or still in flight.
   */
  lemma OrderIffDoneInOrder(cfg: Config, h: seq<Event>)
    requires NoDup(Added(h))
    ensures InOrderOf(Flatten(Run(cfg, h).sink), Added(h)) <==> Ascending(DoneBatches(cfg, h))
  {
    var bs, ks := Batches(Run(cfg, h).writes), DoneBatches(cfg, h);
    OrderKept(cfg, h);
    SinkIsPicked(cfg, h);
    PlacesStand(bs, ks);
    PlacesAscendIff(bs, ks);
    assert Added(h)[..|Flatten(bs)|] == Flatten(bs);
    OrderIsOfPlaces(Flatten(Run(cfg, h).sink), Added(h), Places(bs, ks));
  }

  // ----- what an awaited flush has seen to -----

  lemma {:induction false} BatchesStayAll(cfg: Config, h: seq<Event>, n: nat)
    requires n <= |h|
    ensures Batches(Run(cfg, h[..n]).writes) <= Batches(Run(cfg, h).writes)
  {
    if n == |h| {
      assert h[..n] == h;
    } else {
      var p := h[..|h| - 1];
      assert p[..n] == h[..n];
      BatchesStayAll(cfg, p, n);
      BatchesStay(cfg, Run(cfg, p), h[|h| - 1]);
    }
  }

  lemma {:induction false} InSomeBatch(bs: seq<seq<Reading>>, row: Reading)
    ensures row in Flatten(bs) <==> exists k | 0 <= k < |bs| :: row in bs[k]
  {
    if bs == [] {
    } else {
      var front := bs[..|bs| - 1];
      InSomeBatch(front, row);
      assert forall k | 0 <= k < |front| :: front[k] == bs[k];
    }
  }

  lemma WrittenIffInWrittenBatch(cfg: Config, h: seq<Event>, row: Reading)
    ensures var s := Run(cfg, h);
            row in Flatten(s.sink) <==> exists k | 0 <= k < |s.writes| :: s.writes[k].progress == Written && row in s.writes[k].rows
  {
    SinkHoldsWritten(cfg, h, row);
    RowsByPositive(Run(cfg, h).writes, Written, row);
  }

  lemma RowPlace(bs: seq<seq<Reading>>, k: nat, row: Reading) returns (p: nat)
    requires k < |bs| && row in bs[k]
    ensures |Flatten(bs[..k])| <= p < |Flatten(bs[..k + 1])| && p < |Flatten(bs)| && Flatten(bs)[p] == row
  {
    var t :| 0 <= t < |bs[k]| && bs[k][t] == row;
    RowStands(bs, k, t);
    EndsWhereNextStarts(bs, k);
    p := |Flatten(bs[..k])| + t;
  }

  lemma SamePlace(all: seq<Reading>, rest: seq<Reading>, p: nat, q: nat)
    requires NoDup(all + rest) && p < |all| && q < |all| && all[p] == all[q]
    ensures p == q
  {
    assert (all + rest)[p] == (all + rest)[q];
  }

  lemma DistinctBatches(bs: seq<seq<Reading>>, rest: seq<Reading>, j: nat, k: nat, row: Reading)
    requires NoDup(Flatten(bs) + rest) && j < |bs| && k < |bs| && row in bs[j] && row in bs[k]
    ensures j == k
  {
    var p := RowPlace(bs, j, row);
    var q := RowPlace(bs, k, row);
    SamePlace(Flatten(bs), rest, p, q);
    if j < k {
      FlattenNotShorter(bs, j + 1, k);
    } else if k < j {
      FlattenNotShorter(bs, k + 1, j);
    }
  }

  lemma {:induction false} FlattenNotShorter(bs: seq<seq<Reading>>, i: nat, j: nat)
    requires i <= j <= |bs|
    ensures |Flatten(bs[..i])| <= |Flatten(bs[..j])|
  {
    if i == j {
    } else {
      FlattenNotShorter(bs, i, j - 1);
      EndsWhereNextStarts(bs, j - 1);
    }
  }

  /** Of distinct rows, a batch is written exactly if all its rows are. */
  lemma BatchWrittenIff(cfg: Config, h: seq<Event>, k: nat)
    requires NoDup(Added(h)) && k < |Run(cfg, h).writes|
    ensures var w := Run(cfg, h).writes[k];
            w.rows != [] && (w.progress == Written <==> forall row | row in w.rows :: row in Flatten(Run(cfg, h).sink))
  {
    var s := Run(cfg, h);
    OrderKept(cfg, h);
    var w := s.writes[k];
    if w.progress == Written {
      forall row | row in w.rows ensures row in Flatten(s.sink) {
        WrittenIffInWrittenBatch(cfg, h, row);
      }
    } else if forall row | row in w.rows :: row in Flatten(s.sink) {
      WrittenIffInWrittenBatch(cfg, h, w.rows[0]);
      var j :| 0 <= j < |s.writes| && s.writes[j].progress == Written && w.rows[0] in s.writes[j].rows;
      DistinctBatches(Batches(s.writes), s.buffer, j, k, w.rows[0]);
    }
  }

  /**
   With a flush at position i, at any later point of the run, whatever other calls
   do in between: the rows added before it have all been written if and only if every
   batch that had left the buffer by then, the flush's own included, has been written.
   */
  lemma FlushCoversIff(cfg: Config, h: seq<Event>, i: nat)
    requires i < |h| && h[i] == Flush && NoDup(Added(h))
    ensures var m := |Run(cfg, h[..i + 1]).writes|;
            && m <= |Run(cfg, h).writes|
            && ((forall row | row in Added(h[..i]) :: row in Flatten(Run(cfg, h).sink)) <==>
                  forall k | 0 <= k < m :: Run(cfg, h).writes[k].progress == Written)
  {
    var before, s := Run(cfg, h[..i + 1]), Run(cfg, h);
    var bs := Batches(before.writes);
    assert h[..i + 1][..i] == h[..i];
    OrderKept(cfg, h[..i + 1]);
    assert before.buffer == [] && Flatten(bs) + [] == Flatten(bs);
    assert Flatten(bs) == Added(h[..i]);
    BatchesStayAll(cfg, h, i + 1);
    assert forall k | 0 <= k < |bs| :: bs[k] == Batches(s.writes)[k] == s.writes[k].rows;
    forall k | 0 <= k < |bs|
      ensures s.writes[k].progress == Written <==> forall row | row in bs[k] :: row in Flatten(s.sink)
    {
      BatchWrittenIff(cfg, h, k);
    }
    forall row ensures row in Added(h[..i]) <==> exists k | 0 <= k < |bs| :: row in bs[k] {
      InSomeBatch(bs, row);
    }
  }

  /** Overlapping writes can reach the sink out of order, so order is a promise of sequential runs only. */
  lemma OverlappingWritesReorder(a: Reading, b: Reading)
    ensures var h := [Add(a, 0.0, 0.0)] + [Add(b, 0.0, 0.0)] + [WriteDone(1)] + [WriteDone(0)];
            Run(Config(1, 2.0), h).sink == [[b], [a]] && Added(h) == [a, b]
  {
    var cfg := Config(1, 2.0);
    var h1 := [Add(a, 0.0, 0.0)];
    var h2 := h1 + [Add(b, 0.0, 0.0)];
    var h3 := h2 + [WriteDone(1)];
    SingleAdd(a);
    RunSnoc(cfg, h1, Add(b, 0.0, 0.0));
    RunSnoc(cfg, h2, WriteDone(1));
    RunSnoc(cfg, h3, WriteDone(0));
    assert [] + [b] == [b];
    assert Run(cfg, h2) == State([], None, [Write([a], InFlight), Write([b], InFlight)], []);
    assert Run(cfg, h3) == State([], None, [Write([a], InFlight), Write([b], Written)], [[b]]);
  }

  // ----- the buffer object: one method per part of `add` and `flush` that runs without suspending -----

  class MeterValueBuffer {
    const cfg: Config
    var buffer: seq<Reading>
    var openedAt: Option<real>
    var writes: seq<Write>
    var sink: seq<seq<Reading>>
    ghost var history: seq<Event>

    ghost function Snapshot(): State
      reads this
    {
      State(buffer, openedAt, writes, sink)
    }

    ghost predicate Valid()
      reads this
    {
      Snapshot() == Run(cfg, history)
    }

    constructor (maxBatchSize: int, flushInterval: real)
      ensures Valid() && history == [] && writes == [] && cfg == Config(maxBatchSize, flushInterval)
    {
      cfg := Config(maxBatchSize, flushInterval);
      buffer, openedAt, writes, sink, history := [], None, [], [], [];
    }

    ghost method Log(e: Event)
      requires Snapshot() == Step(cfg, Run(cfg, history), e)
      modifies this`history
      ensures Valid() && history == old(history) + [e]
    {
      RunSnoc(cfg, history, e);
      history := history + [e];
    }

    /** Up to the awaited write, if a flush is due; `batch` is then the write to await. */
    method Add(row: Reading, openedNow: real, checked: real) returns (batch: Option<nat>)
      requires Valid()
      modifies this
      ensures Valid() && history == old(history) + [Event.Add(row, openedNow, checked)]
      ensures Awaits(batch, old(writes))
    {
      OrderKept(cfg, history);
      if buffer == [] {
        openedAt := Some(openedNow);
      }
      buffer := buffer + [row];
      batch := None;
      if |buffer| >= cfg.maxBatchSize || checked - openedAt.value >= cfg.flushInterval {
        batch := TakeOut();
      }
      Log(Event.Add(row, openedNow, checked));
    }

    method Flush() returns (batch: Option<nat>)
      requires Valid()
      modifies this
      ensures Valid() && history == old(history) + [Event.Flush]
      ensures Awaits(batch, old(writes)) && buffer == []
    {
      batch := TakeOut();
      Log(Event.Flush);
    }

    /** The batch named is the newest write, now under way; with none, no write was begun. */
    ghost predicate Awaits(batch: Option<nat>, before: seq<Write>)
      reads this
    {
      match batch
      case None => writes == before
      case Some(k) => k == |before| && |writes| == k + 1 && writes[..k] == before && writes[k].progress == InFlight
    }

    method TakeOut() returns (batch: Option<nat>)
      modifies this`buffer, this`openedAt, this`writes
      ensures Snapshot() == SwapOut(old(Snapshot()))
      ensures Awaits(batch, old(writes)) && buffer == []
    {
      batch := None;
      if buffer != [] {
        batch := Some(|writes|);
        writes := writes + [Write(buffer, InFlight)];
        buffer, openedAt := [], None;
      }
    }

    /** The sink has taken the batch. */
    method WriteReturned(k: nat)
      requires Valid() && k < |writes| && writes[k].progress == InFlight
      modifies this
      ensures Valid() && history == old(history) + [WriteDone(k)]
      ensures buffer == old(buffer) && writes == old(writes)[k := Write(old(writes)[k].rows, Written)]
    {
      sink := sink + [writes[k].rows];
      writes := writes[k := Write(writes[k].rows, Written)];
      Log(WriteDone(k));
    }

    /** The sink raised: the batch is gone. */
    method WriteRaised(k: nat)
      requires Valid() && k < |writes| && writes[k].progress == InFlight
      modifies this
      ensures Valid() && history == old(history) + [WriteFails(k)]
      ensures buffer == old(buffer) && writes == old(writes)[k := Write(old(writes)[k].rows, Lost)]
    {
      writes := writes[k := Write(writes[k].rows, Lost)];
      Log(WriteFails(k));
    }

    /** `flush` to its end, no other call running meanwhile; false stands for the error the sink raised. */
    method FlushAndWait(raises: bool) returns (ok: bool)
      requires Valid()
      modifies this
      ensures Valid() && buffer == [] && Added(history) == old(Added(history))
      ensures |old(writes)| <= |writes| <= |old(writes)| + 1 && writes[..|old(writes)|] == old(writes)
      ensures |writes| > |old(writes)| ==> writes[|old(writes)|].progress == if ok then Written else Lost
      ensures !ok ==> |writes| > |old(writes)|
      ensures ok <==> !raises || |writes| == |old(writes)|
    {
      RunSnoc(cfg, history, Event.Flush);
      var batch := Flush();
      ok := Settle(batch, raises);
    }

    /** `add` to its end, no other call running meanwhile. */
    method AddAndWait(row: Reading, openedNow: real, checked: real, raises: bool) returns (ok: bool)
      requires Valid()
      modifies this
      ensures Valid() && Added(history) == old(Added(history)) + [row]
      ensures !ok ==> |writes| == |old(writes)| + 1 && writes[|old(writes)|].progress == Lost
      ensures !raises ==> ok
    {
      RunSnoc(cfg, history, Event.Add(row, openedNow, checked));
      var batch := Add(row, openedNow, checked);
      ok := Settle(batch, raises);
    }

    /** The write just begun, if any, comes back. */
    method Settle(batch: Option<nat>, raises: bool) returns (ok: bool)
      requires Valid() && (batch.Some? ==> batch.value < |writes| && writes[batch.value].progress == InFlight)
      modifies this
      ensures Valid() && buffer == old(buffer) && Added(history) == old(Added(history))
      ensures ok <==> batch.None? || !raises
      ensures writes == match batch
                        case None => old(writes)
                        case Some(k) => old(writes)[k := Write(old(writes)[k].rows, if raises then Lost else Written)]
    {
      ok := true;
      if batch.Some? {
        ok := !raises;
        if raises {
          RunSnoc(cfg, history, WriteFails(batch.value));
          WriteRaised(batch.value);
        } else {
          RunSnoc(cfg, history, WriteDone(batch.value));
          WriteReturned(batch.value);
        }
      }
    }
  }

  // ----- the latest reading of a transaction -----

  datatype Meter = Meter(transaction: nat, measurand: string)

  function MeterOf(r: Reading): Meter {
    Meter(r.transaction, r.measurand)
  }

  /** A reading replaces the one held unless it is older. */
  function KeepNewest(held: map<Meter, Reading>, r: Reading): map<Meter, Reading> {
    if MeterOf(r) in held && r.ts < held[MeterOf(r)].ts then held else held[MeterOf(r) := r]
  }

  function LatestOf(rows: seq<Reading>): map<Meter, Reading> {
    if rows == [] then map[] else KeepNewest(LatestOf(rows[..|rows| - 1]), rows[|rows| - 1])
  }

  /** No row of the meter is newer than the one at k, and none as new comes after it. */
  ghost predicate NewestAt(rows: seq<Reading>, m: Meter, k: int) {
    && 0 <= k < |rows| && MeterOf(rows[k]) == m
    && forall i | 0 <= i < |rows| && MeterOf(rows[i]) == m :: rows[i].ts <= rows[k].ts && (i > k ==> rows[i].ts < rows[k].ts)
  }

  ghost predicate Holds(rows: seq<Reading>, m: Meter, r: Reading) {
    exists k :: NewestAt(rows, m, k) && rows[k] == r
  }

  ghost predicate Seen(rows: seq<Reading>, m: Meter) {
    exists i | 0 <= i < |rows| :: MeterOf(rows[i]) == m
  }

  lemma NewestStays(front: seq<Reading>, r: Reading, m: Meter, k: int)
    requires NewestAt(front, m, k) && (MeterOf(r) == m ==> r.ts < front[k].ts)
    ensures Holds(front + [r], m, front[k])
  {
    var rows := front + [r];
    assert forall i | 0 <= i < |front| :: rows[i] == front[i];
    assert NewestAt(rows, m, k);
  }

  lemma NewestComes(front: seq<Reading>, r: Reading)
    requires forall i | 0 <= i < |front| && MeterOf(front[i]) == MeterOf(r) :: front[i].ts <= r.ts
    ensures Holds(front + [r], MeterOf(r), r)
  {
    var rows := front + [r];
    assert rows[|front|] == r && forall i | 0 <= i < |front| :: rows[i] == front[i];
    assert NewestAt(rows, MeterOf(r), |front|);
  }

  lemma SeenSnoc(front: seq<Reading>, r: Reading, m: Meter)
    ensures Seen(front + [r], m) <==> Seen(front, m) || MeterOf(r) == m
  {
    var rows := front + [r];
    assert rows[|front|] == r && forall i | 0 <= i < |front| :: rows[i] == front[i];
  }

  /** However late and often readings come, what is held for a meter is the newest, and of equally new ones the last. */
  lemma {:induction false} LatestIsNewest(rows: seq<Reading>, m: Meter)
    ensures m in LatestOf(rows) <==> Seen(rows, m)
    ensures m in LatestOf(rows) ==> Holds(rows, m, LatestOf(rows)[m])
  {
    if rows == [] {
    } else {
      var front, r := rows[..|rows| - 1], rows[|rows| - 1];
      assert rows == front + [r];
      LatestIsNewest(front, m);
      SeenSnoc(front, r, m);
      if m in LatestOf(front) {
        var k :| NewestAt(front, m, k) && front[k] == LatestOf(front)[m];
        if MeterOf(r) == m && r.ts >= front[k].ts {
          NewestComes(front, r);
        } else {
          NewestStays(front, r, m, k);
        }
      } else if MeterOf(r) == m {
        NewestComes(front, r);
      }
    }
  }

  class InMemoryLatestMeterReadingStore {
    var latest: map<Meter, Reading>
    ghost var history: seq<Reading>

    ghost predicate Valid()
      reads this
    {
      latest == LatestOf(history)
    }

    constructor ()
      ensures Valid() && history == []
    {
      latest, history := map[], [];
    }

    method Update(r: Reading)
      requires Valid()
      modifies this
      ensures Valid() && history == old(history) + [r]
    {
      var m := Meter(r.transaction, r.measurand);
      if m !in latest || r.ts >= latest[m].ts {
        latest := latest[m := r];
      }
      history := history + [r];
      assert history[..|history| - 1] == old(history);
    }

    method GetLatest(transaction: nat, measurand: string) returns (r: Option<Reading>)
      requires Valid()
      ensures r.Some? ==> Holds(history, Meter(transaction, measurand), r.value)
      ensures r.None? <==> !Seen(history, Meter(transaction, measurand))
    {
      var m := Meter(transaction, measurand);
      LatestIsNewest(history, m);
      r := if m in latest then Some(latest[m]) else None;
    }
  }
}
