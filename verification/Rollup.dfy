/**
 The nightly usage rollup and the cost report that reads it. Both group rows
 into buckets of an insertion-ordered dictionary; the report never sees the
 sessions, yet its figures have to be theirs.
 */
module Rollup {
  import opened Seqs

  type Uuid = nat
  type Day = int

  datatype Usage = Usage(sessions: int, kwh: int, cost: int)

  /** The three figures a bucket keeps; every sum below is taken one figure at a time. */
  datatype Figure = Sessions | Kwh | Cost

  function Get(u: Usage, f: Figure): int {
    match f
    case Sessions => u.sessions
    case Kwh => u.kwh
    case Cost => u.cost
  }

  // ----- grouping -----

  /** A row to be bucketed under its key. */
  datatype Item<K> = Item(key: K, usage: Usage)

  function TotalWhere<K>(items: seq<Item<K>>, p: K -> bool, f: Figure): int {
    if items == [] then 0 else
      var x := items[|items| - 1];
      TotalWhere(items[..|items| - 1], p, f) + if p(x.key) then Get(x.usage, f) else 0
  }

  function All<K>(): K -> bool {
    (_: K) => true
  }

  function Only<K(==)>(k: K): K -> bool {
    (x: K) => x == k
  }

  function Total<K>(items: seq<Item<K>>, f: Figure): int {
    TotalWhere(items, All(), f)
  }

  function TotalFor<K(==)>(items: seq<Item<K>>, k: K, f: Figure): int {
    TotalWhere(items, Only(k), f)
  }

  function Sum3<K>(items: seq<Item<K>>): Usage {
    Usage(Total(items, Sessions), Total(items, Kwh), Total(items, Cost))
  }

  function Sum3For<K(==)>(items: seq<Item<K>>, k: K): Usage {
    Usage(TotalFor(items, k, Sessions), TotalFor(items, k, Kwh), TotalFor(items, k, Cost))
  }

  /** The keys of the items, each where it first occurs. */
  function Keys<K(==)>(items: seq<Item<K>>): seq<K> {
    if items == [] then [] else
      var ks, x := Keys(items[..|items| - 1]), items[|items| - 1];
      if x.key in ks then ks else ks + [x.key]
  }

  /** One row per key with the sum of its items. */
  function Group<K(==)>(items: seq<Item<K>>): seq<Item<K>> {
    var ks := Keys(items);
    seq(|ks|, i requires 0 <= i < |ks| => Item(ks[i], Sum3For(items, ks[i])))
  }

  lemma TotalWhereSnoc<K>(items: seq<Item<K>>, x: Item<K>, p: K -> bool, f: Figure)
    ensures TotalWhere(items + [x], p, f) == TotalWhere(items, p, f) + if p(x.key) then Get(x.usage, f) else 0
  {
    assert (items + [x])[..|items|] == items;
  }

  lemma TotalForSnoc<K>(items: seq<Item<K>>, x: Item<K>, k: K, f: Figure)
    ensures TotalFor(items + [x], k, f) == TotalFor(items, k, f) + if x.key == k then Get(x.usage, f) else 0
  {
    TotalWhereSnoc(items, x, Only(k), f);
  }

  lemma TotalSnoc<K>(items: seq<Item<K>>, x: Item<K>, f: Figure)
    ensures Total(items + [x], f) == Total(items, f) + Get(x.usage, f)
  {
    TotalWhereSnoc(items, x, All(), f);
  }

  lemma {:induction false} KeysDistinct<K>(items: seq<Item<K>>)
    ensures NoDup(Keys(items))
  {
    if items == [] {
    } else {
      KeysDistinct(items[..|items| - 1]);
    }
  }

  lemma {:induction false} AbsentKey<K>(items: seq<Item<K>>, k: K, f: Figure)
    requires k !in Keys(items)
    ensures TotalFor(items, k, f) == 0
  {
    if items == [] {
    } else {
      assert items[|items| - 1].key in Keys(items);
      AbsentKey(items[..|items| - 1], k, f);
    }
  }

  lemma AbsentKeyUsage<K>(items: seq<Item<K>>, k: K)
    requires k !in Keys(items)
    ensures Sum3For(items, k) == Usage(0, 0, 0)
  {
    AbsentKey(items, k, Sessions);
    AbsentKey(items, k, Kwh);
    AbsentKey(items, k, Cost);
  }

  /** The bucket loop shared by the rollup and the report: a dictionary of running sums. */
  method GroupLoop<K(==)>(items: seq<Item<K>>) returns (rows: seq<Item<K>>)
    ensures rows == Group(items)
  {
    var order: seq<K> := [];
    var buckets: map<K, Usage> := map[];
    for i := 0 to |items|
      invariant order == Keys(items[..i])
      invariant forall k :: k in buckets <==> k in order
      invariant forall k | k in buckets :: buckets[k] == Sum3For(items[..i], k)
    {
      assert items[..i + 1][..i] == items[..i];
      var x := items[i];
      if x.key !in buckets {
        AbsentKeyUsage(items[..i], x.key);
        buckets := buckets[x.key := Usage(0, 0, 0)];
        order := order + [x.key];
      }
      var b := buckets[x.key];
      buckets := buckets[x.key := Usage(b.sessions + x.usage.sessions, b.kwh + x.usage.kwh, b.cost + x.usage.cost)];
    }
    assert items[..|items|] == items;
    rows := [];
    for i := 0 to |order|
      invariant rows == Group(items)[..i]
    {
      rows := rows + [Item(order[i], buckets[order[i]])];
    }
  }

  // ----- grouping loses nothing -----

  lemma KeysSnoc<K>(items: seq<Item<K>>, x: Item<K>)
    ensures Keys(items + [x]) == if x.key in Keys(items) then Keys(items) else Keys(items) + [x.key]
  {
    assert (items + [x])[..|items|] == items;
  }

  lemma {:induction false} TotalWhereConcat<K>(a: seq<Item<K>>, b: seq<Item<K>>, p: K -> bool, f: Figure)
    ensures TotalWhere(a + b, p, f) == TotalWhere(a, p, f) + TotalWhere(b, p, f)
  {
    if b == [] {
      assert a + b == a;
    } else {
      TotalWhereConcat(a, b[..|b| - 1], p, f);
      assert (a + b)[..|a + b| - 1] == a + b[..|b| - 1];
    }
  }

  /** The figures of grouped rows, given the keys and the items they were summed from. */
  function RowTotal<K(==)>(ks: seq<K>, items: seq<Item<K>>, p: K -> bool, f: Figure): int {
    if ks == [] then 0 else
      var k := ks[|ks| - 1];
      RowTotal(ks[..|ks| - 1], items, p, f) + if p(k) then TotalFor(items, k, f) else 0
  }

  lemma {:induction false} RowTotalIsTotal<K>(rows: seq<Item<K>>, ks: seq<K>, items: seq<Item<K>>, p: K -> bool, f: Figure)
    requires |rows| == |ks| && forall i | 0 <= i < |ks| :: rows[i] == Item(ks[i], Sum3For(items, ks[i]))
    ensures TotalWhere(rows, p, f) == RowTotal(ks, items, p, f)
  {
    if ks == [] {
    } else {
      RowTotalIsTotal(rows[..|rows| - 1], ks[..|ks| - 1], items, p, f);
    }
  }

  /** One item more adds to the row of its key and to no other. */
  lemma {:induction false} RowTotalSnoc<K>(ks: seq<K>, items: seq<Item<K>>, x: Item<K>, p: K -> bool, f: Figure)
    requires NoDup(ks)
    ensures RowTotal(ks, items + [x], p, f)
         == RowTotal(ks, items, p, f) + if x.key in ks && p(x.key) then Get(x.usage, f) else 0
  {
    if ks == [] {
    } else {
      var k := ks[|ks| - 1];
      RowTotalSnoc(ks[..|ks| - 1], items, x, p, f);
      TotalForSnoc(items, x, k, f);
      assert x.key in ks <==> x.key in ks[..|ks| - 1] || x.key == k;
    }
  }

  lemma RowTotalLast<K>(ks: seq<K>, k: K, items: seq<Item<K>>, p: K -> bool, f: Figure)
    ensures RowTotal(ks + [k], items, p, f) == RowTotal(ks, items, p, f) + if p(k) then TotalFor(items, k, f) else 0
  {
    assert (ks + [k])[..|ks|] == ks;
  }

  /** An item more, its key known or new, adds its figure to the rows if its key is selected. */
  lemma RowTotalGrows<K>(items: seq<Item<K>>, x: Item<K>, p: K -> bool, f: Figure)
    ensures RowTotal(Keys(items + [x]), items + [x], p, f)
         == RowTotal(Keys(items), items, p, f) + if p(x.key) then Get(x.usage, f) else 0
  {
    KeysDistinct(items);
    KeysSnoc(items, x);
    RowTotalSnoc(Keys(items), items, x, p, f);
    if x.key !in Keys(items) {
      RowTotalLast(Keys(items), x.key, items + [x], p, f);
      AbsentKey(items, x.key, f);
      TotalForSnoc(items, x, x.key, f);
    }
  }

  lemma {:induction false} RowTotalConserves<K>(items: seq<Item<K>>, p: K -> bool, f: Figure)
    ensures RowTotal(Keys(items), items, p, f) == TotalWhere(items, p, f)
  {
    if items == [] {
    } else {
      var front, x := items[..|items| - 1], items[|items| - 1];
      assert items == front + [x];
      RowTotalConserves(front, p, f);
      RowTotalGrows(front, x, p, f);
    }
  }

  /** Grouping preserves every figure: whatever keys are selected, the rows add up to the items. */
  lemma GroupingConserves<K>(items: seq<Item<K>>, p: K -> bool, f: Figure)
    ensures TotalWhere(Group(items), p, f) == TotalWhere(items, p, f)
  {
    RowTotalIsTotal(Group(items), Keys(items), items, p, f);
    RowTotalConserves(items, p, f);
  }

  // ----- the rollup -----

  datatype Key = Key(team: Uuid, driver: Uuid, site: Option<Uuid>)

  datatype Session = Session(key: Key, day: Day, kwh: int, cost: int)

  datatype DailyRollup = DailyRollup(key: Key, day: Day, usage: Usage)

  datatype Store = Store(rollups: seq<DailyRollup>, incomplete: set<Day>)

  function Spent(x: Session): Usage {
    Usage(1, x.kwh, x.cost)
  }

  /** The sessions of one day as rows to group. */
  function DayItems(sessions: seq<Session>, day: Day): seq<Item<Key>> {
    if sessions == [] then [] else
      var x := sessions[|sessions| - 1];
      DayItems(sessions[..|sessions| - 1], day) + (if x.day == day then [Item(x.key, Spent(x))] else [])
  }

  function Dated(rows: seq<Item<Key>>, day: Day): seq<DailyRollup> {
    if rows == [] then [] else
      Dated(rows[..|rows| - 1], day) + [DailyRollup(rows[|rows| - 1].key, day, rows[|rows| - 1].usage)]
  }

  /** One call of the rollup: the sessions it is given, the day it is for, and whether its aggregation fails. */
  datatype Job = Job(sessions: seq<Session>, day: Day, failed: bool)

  function RollUp(st: Store, job: Job): Store {
    if job.failed then st.(incomplete := st.incomplete + {job.day})
    else st.(rollups := st.rollups + Dated(Group(DayItems(job.sessions, job.day)), job.day))
  }

  function RollUpAll(jobs: seq<Job>): Store {
    if jobs == [] then Store([], {}) else RollUp(RollUpAll(jobs[..|jobs| - 1]), jobs[|jobs| - 1])
  }

  // ----- the report -----

  datatype GroupBy = ByDriver | BySite

  datatype Report = Report(rows: seq<Item<Uuid>>, total: Usage, incomplete: seq<Day>)

  const NO_SITE: Uuid := 0

  function GroupKey(grp: GroupBy, k: Key): Uuid {
    if grp.ByDriver? then k.driver else if k.site.Some? then k.site.value else NO_SITE
  }

  /** The rollups of a date range as rows to group. */
  function InRange(rs: seq<DailyRollup>, since: Day, until: Day): seq<Item<Key>> {
    if rs == [] then [] else
      var r := rs[|rs| - 1];
      InRange(rs[..|rs| - 1], since, until) + (if since <= r.day <= until then [Item(r.key, r.usage)] else [])
  }

  /** The rows of one team, under the key the report groups by. */
  function ForTeam(items: seq<Item<Key>>, team: Uuid, grp: GroupBy): seq<Item<Uuid>> {
    if items == [] then [] else
      var x := items[|items| - 1];
      ForTeam(items[..|items| - 1], team, grp)
      + (if x.key.team == team then [Item(GroupKey(grp, x.key), x.usage)] else [])
  }

  function Query(rs: seq<DailyRollup>, team: Uuid, since: Day, until: Day, grp: GroupBy): seq<Item<Uuid>> {
    ForTeam(InRange(rs, since, until), team, grp)
  }

  lemma QuerySnoc(rs: seq<DailyRollup>, r: DailyRollup, team: Uuid, since: Day, until: Day, grp: GroupBy)
    ensures Query(rs + [r], team, since, until, grp)
         == Query(rs, team, since, until, grp)
            + if r.key.team == team && since <= r.day <= until then [Item(GroupKey(grp, r.key), r.usage)] else []
  {
    assert (rs + [r])[..|rs|] == rs;
    var kept, all := InRange(rs, since, until), InRange(rs + [r], since, until);
    if since <= r.day <= until {
      assert all[..|all| - 1] == kept;
    } else {
      assert all == kept;
    }
  }

  ghost predicate Ascending(ds: seq<Day>) {
    forall i, j | 0 <= i < j < |ds| :: ds[i] < ds[j]
  }

  function Insert(ds: seq<Day>, d: Day): (r: seq<Day>)
    requires Ascending(ds)
    ensures Ascending(r) && forall x :: x in r <==> x == d || x in ds
  {
    if ds == [] || ds[|ds| - 1] < d then ds + [d]
    else if ds[|ds| - 1] == d then ds
    else
      var front, last := ds[..|ds| - 1], ds[|ds| - 1];
      assert ds == front + [last];
      var r := Insert(front, d);
      assert forall x | x in front :: x < last;
      assert forall i | 0 <= i < |r| :: r[i] in r && (r[i] == d || r[i] in front);
      r + [last]
  }

  /** The rows of a report; its totals are their sums. */
  function ReportRows(st: Store, team: Uuid, since: Day, until: Day, grp: GroupBy): seq<Item<Uuid>> {
    Group(Query(st.rollups, team, since, until, grp))
  }

  // ----- the direct sum -----

  /** What a session itself contributes: one session, its energy, its cost. */
  function FieldOf(x: Session, f: Figure): int {
    match f
    case Sessions => 1
    case Kwh => x.kwh
    case Cost => x.cost
  }

  lemma SpentIsFields(x: Session, f: Figure)
    ensures Get(Spent(x), f) == FieldOf(x, f)
  {
  }

  /** Straight over the sessions: those of selected keys on the given days within the range. */
  function Direct(sessions: seq<Session>, p: Key -> bool, since: Day, until: Day, done: set<Day>, f: Figure): int {
    if sessions == [] then 0 else
      var x := sessions[|sessions| - 1];
      Direct(sessions[..|sessions| - 1], p, since, until, done, f)
      + if p(x.key) && since <= x.day <= until && x.day in done then FieldOf(x, f) else 0
  }

  lemma {:induction false} InRangeConcat(a: seq<DailyRollup>, b: seq<DailyRollup>, since: Day, until: Day)
    ensures InRange(a + b, since, until) == InRange(a, since, until) + InRange(b, since, until)
  {
    if b == [] {
      assert a + b == a;
    } else {
      InRangeConcat(a, b[..|b| - 1], since, until);
      assert (a + b)[..|a + b| - 1] == a + b[..|b| - 1];
    }
  }

  lemma {:induction false} DatedInRange(rows: seq<Item<Key>>, day: Day, since: Day, until: Day)
    ensures InRange(Dated(rows, day), since, until) == if since <= day <= until then rows else []
  {
    if rows == [] {
    } else {
      var front := rows[..|rows| - 1];
      DatedInRange(front, day, since, until);
      var ds := Dated(rows, day);
      assert ds[..|ds| - 1] == Dated(front, day);
    }
  }

  /**
   Every run of a day in range that does not fail adds that day's sessions once more:
   the store appends, so rolling each day up once is a duty of the caller.
   */
  lemma EveryRunAdds(st: Store, job: Job, p: Key -> bool, since: Day, until: Day, f: Figure)
    ensures TotalWhere(InRange(RollUp(st, job).rollups, since, until), p, f)
         == TotalWhere(InRange(st.rollups, since, until), p, f) + JobTotal(job, p, since, until, f)
  {
    if !job.failed {
      var rows := Group(DayItems(job.sessions, job.day));
      InRangeConcat(st.rollups, Dated(rows, job.day), since, until);
      DatedInRange(rows, job.day, since, until);
      TotalWhereConcat(InRange(st.rollups, since, until), if since <= job.day <= until then rows else [], p, f);
      GroupingConserves(DayItems(job.sessions, job.day), p, f);
    }
  }

  /** Straight over the sessions of one run's day, if it is in range and did not fail. */
  function JobTotal(job: Job, p: Key -> bool, since: Day, until: Day, f: Figure): int {
    if !job.failed && since <= job.day <= until then TotalWhere(DayItems(job.sessions, job.day), p, f) else 0
  }

  function RunTotal(jobs: seq<Job>, p: Key -> bool, since: Day, until: Day, f: Figure): int {
    if jobs == [] then 0
    else RunTotal(jobs[..|jobs| - 1], p, since, until, f) + JobTotal(jobs[|jobs| - 1], p, since, until, f)
  }

  /** Over any runs, with whatever sessions, repeats, failures and retries, the store holds what each run saw. */
  lemma {:induction false} StoreCountsRuns(jobs: seq<Job>, p: Key -> bool, since: Day, until: Day, f: Figure)
    ensures TotalWhere(InRange(RollUpAll(jobs).rollups, since, until), p, f) == RunTotal(jobs, p, since, until, f)
  {
    if jobs == [] {
    } else {
      StoreCountsRuns(jobs[..|jobs| - 1], p, since, until, f);
      EveryRunAdds(RollUpAll(jobs[..|jobs| - 1]), jobs[|jobs| - 1], p, since, until, f);
    }
  }

  // ----- runs over one body of sessions -----

  /** Every run that does not fail is given the sessions of its day. */
  ghost predicate Agree(jobs: seq<Job>, sessions: seq<Session>) {
    forall i | 0 <= i < |jobs| && !jobs[i].failed :: DayItems(jobs[i].sessions, jobs[i].day) == DayItems(sessions, jobs[i].day)
  }

  /** How often a day was rolled up without failing. */
  function RunsOf(jobs: seq<Job>, d: Day): nat {
    if jobs == [] then 0
    else RunsOf(jobs[..|jobs| - 1], d) + if jobs[|jobs| - 1].day == d && !jobs[|jobs| - 1].failed then 1 else 0
  }

  /** The days rolled up without failing. */
  function RolledUp(jobs: seq<Job>): set<Day> {
    set i | 0 <= i < |jobs| && !jobs[i].failed :: jobs[i].day
  }

  predicate Selected(x: Session, p: Key -> bool, since: Day, until: Day) {
    p(x.key) && since <= x.day <= until
  }

  /** Straight over the sessions: each as often as its day was rolled up. */
  function Repeated(sessions: seq<Session>, p: Key -> bool, since: Day, until: Day, jobs: seq<Job>, f: Figure): int {
    if sessions == [] then 0 else
      var x := sessions[|sessions| - 1];
      Repeated(sessions[..|sessions| - 1], p, since, until, jobs, f)
      + if Selected(x, p, since, until) then RunsOf(jobs, x.day) * FieldOf(x, f) else 0
  }

  lemma OneRunMore(runs: nat, figure: int)
    ensures (runs + 1) * figure == runs * figure + figure
  {
  }

  /** One run more of a day adds that day's sessions. */
  lemma {:induction false} RepeatedAddsRun(
    sessions: seq<Session>, p: Key -> bool, since: Day, until: Day, jobs: seq<Job>, f: Figure)
    requires jobs != []
    ensures var front, job := jobs[..|jobs| - 1], jobs[|jobs| - 1];
            Repeated(sessions, p, since, until, jobs, f)
            == Repeated(sessions, p, since, until, front, f)
               + if !job.failed && since <= job.day <= until then TotalWhere(DayItems(sessions, job.day), p, f) else 0
  {
    if sessions == [] {
    } else {
      var rest, x, d := sessions[..|sessions| - 1], sessions[|sessions| - 1], jobs[|jobs| - 1].day;
      RepeatedAddsRun(rest, p, since, until, jobs, f);
      OneRunMore(RunsOf(jobs[..|jobs| - 1], x.day), FieldOf(x, f));
      SpentIsFields(x, f);
      if x.day == d {
        TotalWhereSnoc(DayItems(rest, d), Item(x.key, Spent(x)), p, f);
      } else {
        assert DayItems(sessions, d) == DayItems(rest, d);
      }
    }
  }

  lemma {:induction false} NothingRepeated(sessions: seq<Session>, p: Key -> bool, since: Day, until: Day, f: Figure)
    ensures Repeated(sessions, p, since, until, [], f) == 0
  {
    if sessions == [] {
    } else {
      NothingRepeated(sessions[..|sessions| - 1], p, since, until, f);
    }
  }

  lemma {:induction false} RunsRepeatSessions(
    jobs: seq<Job>, sessions: seq<Session>, p: Key -> bool, since: Day, until: Day, f: Figure)
    requires Agree(jobs, sessions)
    ensures RunTotal(jobs, p, since, until, f) == Repeated(sessions, p, since, until, jobs, f)
  {
    if jobs == [] {
      NothingRepeated(sessions, p, since, until, f);
    } else {
      assert forall i | 0 <= i < |jobs| - 1 :: jobs[..|jobs| - 1][i] == jobs[i];
      RunsRepeatSessions(jobs[..|jobs| - 1], sessions, p, since, until, f);
      RepeatedAddsRun(sessions, p, since, until, jobs, f);
    }
  }

  lemma {:induction false} RunsPositive(jobs: seq<Job>, d: Day)
    ensures RunsOf(jobs, d) > 0 <==> d in RolledUp(jobs)
  {
    if jobs == [] {
    } else {
      var front, n := jobs[..|jobs| - 1], |jobs| - 1;
      RunsPositive(front, d);
      assert forall i | 0 <= i < n :: front[i] == jobs[i];
      assert d in RolledUp(jobs) <==> d in RolledUp(front) || (!jobs[n].failed && jobs[n].day == d);
    }
  }

  /** No day is rolled up twice without failing; it may fail any number of times besides. */
  ghost predicate OnceEach(jobs: seq<Job>) {
    forall i, j | 0 <= i < j < |jobs| && !jobs[i].failed && !jobs[j].failed :: jobs[i].day != jobs[j].day
  }

  lemma {:induction false} RunsAtMostOne(jobs: seq<Job>, d: Day)
    requires OnceEach(jobs)
    ensures RunsOf(jobs, d) <= 1
  {
    if jobs == [] {
    } else {
      var front := jobs[..|jobs| - 1];
      assert forall i | 0 <= i < |front| :: front[i] == jobs[i];
      RunsAtMostOne(front, d);
      RunsPositive(front, d);
    }
  }

  lemma {:induction false} RepeatedOnce(
    sessions: seq<Session>, p: Key -> bool, since: Day, until: Day, jobs: seq<Job>, f: Figure)
    requires OnceEach(jobs)
    ensures Repeated(sessions, p, since, until, jobs, f) == Direct(sessions, p, since, until, RolledUp(jobs), f)
  {
    if sessions == [] {
    } else {
      var x := sessions[|sessions| - 1];
      RepeatedOnce(sessions[..|sessions| - 1], p, since, until, jobs, f);
      RunsPositive(jobs, x.day);
      RunsAtMostOne(jobs, x.day);
    }
  }

  /** What the store holds after rolling each day up once is the direct sum over the days rolled up. */
  lemma StoreIsDirect(jobs: seq<Job>, sessions: seq<Session>, p: Key -> bool, since: Day, until: Day, f: Figure)
    requires Agree(jobs, sessions) && OnceEach(jobs)
    ensures TotalWhere(InRange(RollUpAll(jobs).rollups, since, until), p, f)
         == Direct(sessions, p, since, until, RolledUp(jobs), f)
  {
    StoreCountsRuns(jobs, p, since, until, f);
    RunsRepeatSessions(jobs, sessions, p, since, until, f);
    RepeatedOnce(sessions, p, since, until, jobs, f);
  }

  /** A session that matters to the figure is counted more than once. */
  ghost predicate DoubleCounted(
    sessions: seq<Session>, p: Key -> bool, since: Day, until: Day, jobs: seq<Job>, f: Figure)
  {
    exists i | 0 <= i < |sessions| ::
      Selected(sessions[i], p, since, until) && RunsOf(jobs, sessions[i].day) > 1 && FieldOf(sessions[i], f) > 0
  }

  lemma DoubleCountedSnoc(sessions: seq<Session>, p: Key -> bool, since: Day, until: Day, jobs: seq<Job>, f: Figure)
    requires sessions != []
    ensures var rest, x := sessions[..|sessions| - 1], sessions[|sessions| - 1];
            DoubleCounted(sessions, p, since, until, jobs, f) <==>
              || DoubleCounted(rest, p, since, until, jobs, f)
              || (Selected(x, p, since, until) && RunsOf(jobs, x.day) > 1 && FieldOf(x, f) > 0)
  {
    var rest, n := sessions[..|sessions| - 1], |sessions| - 1;
    assert forall i | 0 <= i < n :: rest[i] == sessions[i];
    if DoubleCounted(rest, p, since, until, jobs, f) {
      var i :| 0 <= i < n && Selected(rest[i], p, since, until) && RunsOf(jobs, rest[i].day) > 1 && FieldOf(rest[i], f) > 0;
      assert Selected(sessions[i], p, since, until);
    }
  }

  lemma CountedAtLeastOnce(runs: nat, figure: int)
    requires figure >= 0 && runs > 0
    ensures runs * figure >= figure && (runs * figure > figure <==> runs > 1 && figure > 0)
  {
    OneRunMore(runs - 1, figure);
    if runs > 1 {
      OneRunMore(runs - 2, figure);
    }
  }

  lemma {:induction false} RepeatedExceedsDirect(
    sessions: seq<Session>, p: Key -> bool, since: Day, until: Day, jobs: seq<Job>, f: Figure)
    requires forall i | 0 <= i < |sessions| :: FieldOf(sessions[i], f) >= 0
    ensures var repeated := Repeated(sessions, p, since, until, jobs, f);
            var direct := Direct(sessions, p, since, until, RolledUp(jobs), f);
            && direct <= repeated
            && (direct < repeated <==> DoubleCounted(sessions, p, since, until, jobs, f))
  {
    if sessions == [] {
    } else {
      var x := sessions[|sessions| - 1];
      RepeatedExceedsDirect(sessions[..|sessions| - 1], p, since, until, jobs, f);
      DoubleCountedSnoc(sessions, p, since, until, jobs, f);
      RunsPositive(jobs, x.day);
      if RunsOf(jobs, x.day) > 0 {
        CountedAtLeastOnce(RunsOf(jobs, x.day), FieldOf(x, f));
      }
    }
  }

  /**
   For a figure that is never negative, what the store holds is the direct sum if
   and only if no session that counts towards it is of a day rolled up more than once.
   */
  lemma StoreIsDirectIff(jobs: seq<Job>, sessions: seq<Session>, p: Key -> bool, since: Day, until: Day, f: Figure)
    requires Agree(jobs, sessions) && forall i | 0 <= i < |sessions| :: FieldOf(sessions[i], f) >= 0
    ensures TotalWhere(InRange(RollUpAll(jobs).rollups, since, until), p, f)
            == Direct(sessions, p, since, until, RolledUp(jobs), f)
       <==> !DoubleCounted(sessions, p, since, until, jobs, f)
  {
    StoreCountsRuns(jobs, p, since, until, f);
    RunsRepeatSessions(jobs, sessions, p, since, until, f);
    RepeatedExceedsDirect(sessions, p, since, until, jobs, f);
  }

  lemma SingleSession(x: Session, p: Key -> bool, f: Figure)
    ensures TotalWhere(DayItems([x], x.day), p, f) == if p(x.key) then FieldOf(x, f) else 0
  {
    SpentIsFields(x, f);
    assert [x][..0] == [] && [Item(x.key, Spent(x))][..0] == [];
    assert DayItems([x][..0], x.day) == [];
    assert DayItems([x], x.day) == [Item(x.key, Spent(x))];
  }

  lemma TwoJobs(a: Job, b: Job, p: Key -> bool, since: Day, until: Day, f: Figure)
    ensures RunTotal([a, b], p, since, until, f) == JobTotal(a, p, since, until, f) + JobTotal(b, p, since, until, f)
  {
    assert [a, b][..1] == [a] && [a][..0] == [];
    assert RunTotal([a][..0], p, since, until, f) == 0;
  }

  /** A day rolled up twice over one session reports that session twice. */
  lemma SecondRunDoubles(x: Session, f: Figure)
    ensures var job := Job([x], x.day, false);
            TotalWhere(InRange(RollUpAll([job, job]).rollups, x.day, x.day), All(), f) == 2 * FieldOf(x, f)
  {
    var job := Job([x], x.day, false);
    StoreCountsRuns([job, job], All(), x.day, x.day, f);
    TwoJobs(job, job, All(), x.day, x.day, f);
    SingleSession(x, All(), f);
  }

  // ----- days marked incomplete -----

  function FailedDays(jobs: seq<Job>): set<Day> {
    set i | 0 <= i < |jobs| && jobs[i].failed :: jobs[i].day
  }

  /** The days marked incomplete are exactly those some run of which failed: nothing takes the mark away. */
  lemma {:induction false} IncompleteDays(jobs: seq<Job>)
    ensures RollUpAll(jobs).incomplete == FailedDays(jobs)
  {
    if jobs == [] {
    } else {
      var front, n := jobs[..|jobs| - 1], |jobs| - 1;
      IncompleteDays(front);
      assert forall i | 0 <= i < n :: front[i] == jobs[i];
      assert FailedDays(jobs) == FailedDays(front) + if jobs[n].failed then {jobs[n].day} else {};
    }
  }

  predicate HasRows(rs: seq<DailyRollup>, d: Day) {
    exists k | 0 <= k < |rs| :: rs[k].day == d
  }

  /** Some run of the day did not fail and had sessions to report. */
  ghost predicate Reported(jobs: seq<Job>, d: Day) {
    exists i | 0 <= i < |jobs| :: jobs[i].day == d && !jobs[i].failed && DayItems(jobs[i].sessions, d) != []
  }

  lemma HasRowsConcat(a: seq<DailyRollup>, b: seq<DailyRollup>, d: Day)
    ensures HasRows(a + b, d) <==> HasRows(a, d) || HasRows(b, d)
  {
    var c := a + b;
    assert forall k | 0 <= k < |a| :: c[k] == a[k];
    assert forall k | 0 <= k < |b| :: c[|a| + k] == b[k];
    if k :| 0 <= k < |b| && b[k].day == d {
      assert c[|a| + k].day == d;
    }
  }

  lemma {:induction false} DatedHasRows(rows: seq<Item<Key>>, day: Day, d: Day)
    ensures HasRows(Dated(rows, day), d) <==> rows != [] && d == day
  {
    if rows == [] {
    } else {
      DatedHasRows(rows[..|rows| - 1], day, d);
      var last := DailyRollup(rows[|rows| - 1].key, day, rows[|rows| - 1].usage);
      HasRowsConcat(Dated(rows[..|rows| - 1], day), [last], d);
      assert [last][0].day == day;
    }
  }

  lemma {:induction false} GroupsOfSome<K>(items: seq<Item<K>>)
    ensures Keys(items) == [] <==> items == []
  {
    if items == [] {
    } else {
      GroupsOfSome(items[..|items| - 1]);
    }
  }

  lemma {:induction false} RowsOfDay(jobs: seq<Job>, d: Day)
    ensures HasRows(RollUpAll(jobs).rollups, d) <==> Reported(jobs, d)
  {
    if jobs == [] {
    } else {
      var front, n := jobs[..|jobs| - 1], |jobs| - 1;
      var job := jobs[n];
      RowsOfDay(front, d);
      assert forall i | 0 <= i < n :: front[i] == jobs[i];
      assert Reported(jobs, d) <==> Reported(front, d) || (job.day == d && !job.failed && DayItems(job.sessions, d) != []) by {
        if i :| 0 <= i < n && front[i].day == d && !front[i].failed && DayItems(front[i].sessions, d) != [] {
          assert jobs[i].day == d;
        }
      }
      if !job.failed {
        var rows := Group(DayItems(job.sessions, job.day));
        HasRowsConcat(RollUpAll(front).rollups, Dated(rows, job.day), d);
        DatedHasRows(rows, job.day, d);
        GroupsOfSome(DayItems(job.sessions, job.day));
      }
    }
  }

  /** A day is both reported and marked incomplete if and only if a run of it failed and another found sessions to report. */
  lemma MarkedThoughReportedIff(jobs: seq<Job>, d: Day)
    ensures d in RollUpAll(jobs).incomplete && HasRows(RollUpAll(jobs).rollups, d)
       <==> d in FailedDays(jobs) && Reported(jobs, d)
  {
    IncompleteDays(jobs);
    RowsOfDay(jobs, d);
  }

  /** A day that failed and was then rolled up after all stays marked, with its figures in the totals. */
  lemma RetriedDayStaysMarked(x: Session, f: Figure)
    ensures var jobs := [Job([x], x.day, true), Job([x], x.day, false)];
            && x.day in RollUpAll(jobs).incomplete
            && TotalWhere(InRange(RollUpAll(jobs).rollups, x.day, x.day), All(), f) == FieldOf(x, f)
  {
    var jobs := [Job([x], x.day, true), Job([x], x.day, false)];
    IncompleteDays(jobs);
    assert jobs[0].failed;
    StoreCountsRuns(jobs, All(), x.day, x.day, f);
    TwoJobs(jobs[0], jobs[1], All(), x.day, x.day, f);
    SingleSession(x, All(), f);
  }

  // ----- the report's figures -----

  function InTeam(team: Uuid): Key -> bool {
    (k: Key) => k.team == team
  }

  /** The sessions a row is for: those of its driver, or of its site, the nil id standing for sessions without one. */
  function InRow(team: Uuid, grp: GroupBy, g: Uuid): Key -> bool {
    match grp
    case ByDriver => (k: Key) => k.team == team && k.driver == g
    case BySite => (k: Key) => k.team == team && (k.site == Some(g) || (k.site.None? && g == 0))
  }

  lemma RowIsOfItsKey(team: Uuid, grp: GroupBy, g: Uuid, k: Key)
    ensures InRow(team, grp, g)(k) <==> k.team == team && GroupKey(grp, k) == g
  {
  }

  lemma TeamSnoc(items: seq<Item<Key>>, team: Uuid, grp: GroupBy)
    requires items != []
    ensures var x := items[|items| - 1];
            ForTeam(items, team, grp)
            == ForTeam(items[..|items| - 1], team, grp) + if x.key.team == team then [Item(GroupKey(grp, x.key), x.usage)] else []
  {
  }

  lemma {:induction false} TeamTotal(items: seq<Item<Key>>, team: Uuid, grp: GroupBy, f: Figure)
    ensures Total(ForTeam(items, team, grp), f) == TotalWhere(items, InTeam(team), f)
  {
    if items == [] {
    } else {
      var front, x := items[..|items| - 1], items[|items| - 1];
      TeamTotal(front, team, grp, f);
      TeamSnoc(items, team, grp);
      if x.key.team == team {
        TotalSnoc(ForTeam(front, team, grp), Item(GroupKey(grp, x.key), x.usage), f);
      } else {
        assert ForTeam(items, team, grp) == ForTeam(front, team, grp);
      }
    }
  }

  lemma {:induction false} TeamRowTotal(items: seq<Item<Key>>, team: Uuid, grp: GroupBy, g: Uuid, f: Figure)
    ensures TotalFor(ForTeam(items, team, grp), g, f) == TotalWhere(items, InRow(team, grp, g), f)
  {
    if items == [] {
    } else {
      var front, x := items[..|items| - 1], items[|items| - 1];
      TeamRowTotal(front, team, grp, g, f);
      TeamSnoc(items, team, grp);
      RowIsOfItsKey(team, grp, g, x.key);
      if x.key.team == team {
        TotalForSnoc(ForTeam(front, team, grp), Item(GroupKey(grp, x.key), x.usage), g, f);
      } else {
        assert ForTeam(items, team, grp) == ForTeam(front, team, grp);
      }
    }
  }

  lemma ReportFigure(
    jobs: seq<Job>, sessions: seq<Session>, team: Uuid, since: Day, until: Day, grp: GroupBy, f: Figure)
    requires Agree(jobs, sessions) && OnceEach(jobs)
    ensures Total(ReportRows(RollUpAll(jobs), team, since, until, grp), f)
         == Direct(sessions, InTeam(team), since, until, RolledUp(jobs), f)
  {
    var items := InRange(RollUpAll(jobs).rollups, since, until);
    GroupingConserves(ForTeam(items, team, grp), All(), f);
    TeamTotal(items, team, grp, f);
    StoreIsDirect(jobs, sessions, InTeam(team), since, until, f);
  }

  /** A usage is the number, the energy and the cost of the selected sessions on the given days. */
  ghost predicate IsDirectSum(u: Usage, sessions: seq<Session>, p: Key -> bool, since: Day, until: Day, done: set<Day>) {
    && u.sessions == Direct(sessions, p, since, until, done, Sessions)
    && u.kwh == Direct(sessions, p, since, until, done, Kwh)
    && u.cost == Direct(sessions, p, since, until, done, Cost)
  }

  /**
   The report's totals are the direct sums over the team's sessions on the days in
   range that were rolled up, whichever grouping is asked for.
   */
  lemma ReportIsDirectSum(jobs: seq<Job>, sessions: seq<Session>, team: Uuid, since: Day, until: Day, grp: GroupBy)
    requires Agree(jobs, sessions) && OnceEach(jobs)
    ensures IsDirectSum(Sum3(ReportRows(RollUpAll(jobs), team, since, until, grp)), sessions, InTeam(team), since, until, RolledUp(jobs))
  {
    ReportFigure(jobs, sessions, team, since, until, grp, Sessions);
    ReportFigure(jobs, sessions, team, since, until, grp, Kwh);
    ReportFigure(jobs, sessions, team, since, until, grp, Cost);
  }

  lemma RowFigure(
    jobs: seq<Job>, sessions: seq<Session>, team: Uuid, since: Day, until: Day, grp: GroupBy, g: Uuid, f: Figure)
    requires Agree(jobs, sessions) && OnceEach(jobs)
    ensures TotalFor(Query(RollUpAll(jobs).rollups, team, since, until, grp), g, f)
         == Direct(sessions, InRow(team, grp, g), since, until, RolledUp(jobs), f)
  {
    TeamRowTotal(InRange(RollUpAll(jobs).rollups, since, until), team, grp, g, f);
    StoreIsDirect(jobs, sessions, InRow(team, grp, g), since, until, f);
  }

  /** Each row is the direct sum over the sessions of its driver or site, and no key has two rows. */
  lemma RowsAreDirectSums(
    jobs: seq<Job>, sessions: seq<Session>, team: Uuid, since: Day, until: Day, grp: GroupBy, i: nat)
    requires Agree(jobs, sessions) && OnceEach(jobs) && i < |ReportRows(RollUpAll(jobs), team, since, until, grp)|
    ensures var rows := ReportRows(RollUpAll(jobs), team, since, until, grp);
            && IsDirectSum(rows[i].usage, sessions, InRow(team, grp, rows[i].key), since, until, RolledUp(jobs))
            && forall j | 0 <= j < |rows| && j != i :: rows[j].key != rows[i].key
  {
    var q := Query(RollUpAll(jobs).rollups, team, since, until, grp);
    var g := Group(q)[i].key;
    KeysDistinct(q);
    RowFigure(jobs, sessions, team, since, until, grp, g, Sessions);
    RowFigure(jobs, sessions, team, since, until, grp, g, Kwh);
    RowFigure(jobs, sessions, team, since, until, grp, g, Cost);
  }

  // ----- which rows there are -----

  /** Every item stands for at least one session. */
  ghost predicate Counted<K>(items: seq<Item<K>>) {
    forall i | 0 <= i < |items| :: items[i].usage.sessions >= 1
  }

  lemma {:induction false} KeyIffCounted<K>(items: seq<Item<K>>, k: K)
    requires Counted(items)
    ensures TotalFor(items, k, Sessions) >= 0
    ensures k in Keys(items) <==> TotalFor(items, k, Sessions) > 0
  {
    if items == [] {
    } else {
      var front, x := items[..|items| - 1], items[|items| - 1];
      assert items == front + [x] && Counted(front) && x.usage.sessions >= 1;
      KeyIffCounted(front, k);
      KeysSnoc(front, x);
      TotalForSnoc(front, x, k, Sessions);
    }
  }

  lemma GroupCounted<K>(items: seq<Item<K>>)
    requires Counted(items)
    ensures Counted(Group(items))
  {
    forall i | 0 <= i < |Group(items)| ensures Group(items)[i].usage.sessions >= 1 {
      KeyIffCounted(items, Keys(items)[i]);
    }
  }

  lemma {:induction false} DayCounted(sessions: seq<Session>, day: Day)
    ensures Counted(DayItems(sessions, day))
  {
    if sessions == [] {
    } else {
      DayCounted(sessions[..|sessions| - 1], day);
    }
  }

  lemma {:induction false} StoreCounted(jobs: seq<Job>, since: Day, until: Day)
    ensures Counted(InRange(RollUpAll(jobs).rollups, since, until))
  {
    if jobs == [] {
    } else {
      var front, job := RollUpAll(jobs[..|jobs| - 1]).rollups, jobs[|jobs| - 1];
      StoreCounted(jobs[..|jobs| - 1], since, until);
      if !job.failed {
        var rows := Group(DayItems(job.sessions, job.day));
        DayCounted(job.sessions, job.day);
        GroupCounted(DayItems(job.sessions, job.day));
        InRangeConcat(front, Dated(rows, job.day), since, until);
        DatedInRange(rows, job.day, since, until);
      }
    }
  }

  lemma {:induction false} TeamCounted(items: seq<Item<Key>>, team: Uuid, grp: GroupBy)
    requires Counted(items)
    ensures Counted(ForTeam(items, team, grp))
  {
    if items == [] {
    } else {
      assert forall i | 0 <= i < |items| - 1 :: items[..|items| - 1][i] == items[i];
      TeamCounted(items[..|items| - 1], team, grp);
      TeamSnoc(items, team, grp);
    }
  }

  predicate HasRow(rows: seq<Item<Uuid>>, g: Uuid) {
    exists i | 0 <= i < |rows| :: rows[i].key == g
  }

  /** A driver or site has a row if and only if at least one of its sessions counts. */
  lemma RowIffSessions(jobs: seq<Job>, sessions: seq<Session>, team: Uuid, since: Day, until: Day, grp: GroupBy, g: Uuid)
    requires Agree(jobs, sessions) && OnceEach(jobs)
    ensures HasRow(ReportRows(RollUpAll(jobs), team, since, until, grp), g)
       <==> Direct(sessions, InRow(team, grp, g), since, until, RolledUp(jobs), Sessions) > 0
  {
    var items := InRange(RollUpAll(jobs).rollups, since, until);
    var q := ForTeam(items, team, grp);
    StoreCounted(jobs, since, until);
    TeamCounted(items, team, grp);
    KeyIffCounted(q, g);
    RowFigure(jobs, sessions, team, since, until, grp, g, Sessions);
    if k :| 0 <= k < |Keys(q)| && Keys(q)[k] == g {
      assert Group(q)[k].key == g;
    }
  }

  // ----- the store and the report service -----

  class InMemoryRollupStore {
    var rollups: seq<DailyRollup>
    var incomplete: set<Day>
    ghost var history: seq<Job>

    ghost function Snapshot(): Store
      reads this
    {
      Store(rollups, incomplete)
    }

    ghost predicate Valid()
      reads this
    {
      Snapshot() == RollUpAll(history)
    }

    constructor ()
      ensures Valid() && history == []
    {
      rollups, incomplete, history := [], {}, [];
    }

    method RunDailyRollup(sessions: seq<Session>, day: Day, failing: set<Day>)
      requires Valid()
      modifies this
      ensures Valid() && history == old(history) + [Job(sessions, day, day in failing)]
    {
      if day in failing {
        incomplete := incomplete + {day};
      } else {
        Aggregate(sessions, day);
      }
      history := history + [Job(sessions, day, day in failing)];
      assert history[..|history| - 1] == old(history);
    }

    method Aggregate(sessions: seq<Session>, day: Day)
      modifies this`rollups
      ensures rollups == old(rollups) + Dated(Group(DayItems(sessions, day)), day)
    {
      var items: seq<Item<Key>> := [];
      for i := 0 to |sessions|
        invariant items == DayItems(sessions[..i], day)
      {
        assert sessions[..i + 1][..i] == sessions[..i];
        if sessions[i].day == day {
          items := items + [Item(sessions[i].key, Spent(sessions[i]))];
        }
      }
      assert sessions[..|sessions|] == sessions;
      var rows := GroupLoop(items);
      SaveAll(rows, day);
    }

    method SaveAll(rows: seq<Item<Key>>, day: Day)
      modifies this`rollups
      ensures rollups == old(rollups) + Dated(rows, day)
    {
      for i := 0 to |rows|
        invariant rollups == old(rollups) + Dated(rows[..i], day)
      {
        assert rows[..i + 1][..i] == rows[..i];
        rollups := rollups + [DailyRollup(rows[i].key, day, rows[i].usage)];
      }
      assert rows[..|rows|] == rows;
    }

    /** The failed days of the range in ascending order. */
    method IncompleteDatesInRange(since: Day, until: Day) returns (ds: seq<Day>)
      ensures Ascending(ds)
      ensures forall d :: d in ds <==> d in incomplete && since <= d <= until
    {
      var rest := set d | d in incomplete && since <= d <= until;
      ds := [];
      while rest != {}
        invariant rest <= incomplete && forall d | d in rest :: since <= d <= until
        invariant Ascending(ds)
        invariant forall d :: d in ds || d in rest <==> d in incomplete && since <= d <= until
        decreases rest
      {
        var d :| d in rest;
        ds := Insert(ds, d);
        rest := rest - {d};
      }
    }

    /** Rolled up over a body of sessions, no day twice, the report gives their number, energy and cost. */
    method GenerateReport(team: Uuid, since: Day, until: Day, grp: GroupBy) returns (r: Report)
      requires Valid()
      ensures r.rows == ReportRows(Snapshot(), team, since, until, grp) && r.total == Sum3(r.rows)
      ensures forall sessions | Agree(history, sessions) && OnceEach(history) ::
                IsDirectSum(r.total, sessions, InTeam(team), since, until, RolledUp(history))
      ensures Ascending(r.incomplete)
      ensures forall d :: d in r.incomplete <==> d in incomplete && since <= d <= until
    {
      var items := Select(team, since, until, grp);
      var rows := GroupLoop(items);
      var days := IncompleteDatesInRange(since, until);
      var total := Usage(0, 0, 0);
      for i := 0 to |rows|
        invariant total == Sum3(rows[..i])
      {
        assert rows[..i + 1][..i] == rows[..i];
        var u := rows[i].usage;
        total := Usage(total.sessions + u.sessions, total.kwh + u.kwh, total.cost + u.cost);
      }
      assert rows[..|rows|] == rows;
      r := Report(rows, total, days);
      forall sessions | Agree(history, sessions) && OnceEach(history)
        ensures IsDirectSum(r.total, sessions, InTeam(team), since, until, RolledUp(history))
      {
        ReportIsDirectSum(history, sessions, team, since, until, grp);
      }
    }

    method Select(team: Uuid, since: Day, until: Day, grp: GroupBy) returns (items: seq<Item<Uuid>>)
      ensures items == Query(rollups, team, since, until, grp)
    {
      items := [];
      for i := 0 to |rollups|
        invariant items == Query(rollups[..i], team, since, until, grp)
      {
        assert rollups[..i + 1] == rollups[..i] + [rollups[i]];
        QuerySnoc(rollups[..i], rollups[i], team, since, until, grp);
        if rollups[i].key.team == team && since <= rollups[i].day <= until {
          items := items + [Item(GroupKey(grp, rollups[i].key), rollups[i].usage)];
        }
      }
      assert rollups[..|rollups|] == rollups;
    }
  }
}
