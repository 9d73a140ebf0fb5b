/**
 Carbon intensity through a cache: fresh entries answer without the provider,
 old ones stand in when the provider fails. Asking the provider suspends the
 query, so any number of queries are open at once: each begins with one look at
 the cache and the clock, and ends, in any order, with what the provider gave it.
 */
module Carbon {
  import opened Seqs

  datatype Zone = Zone(country: string, area: string)

  datatype Entry = Entry(value: real, fetchedAt: real)

  /** One call of `get_intensity` with its clock reading; `serial` tells apart calls alike in both. */
  datatype Query = Query(zone: Zone, now: real, serial: nat)

  /** The zones with a provider mapping, fixed, and the time an entry stays fresh. */
  datatype Config = Config(zones: map<Zone, string>, ttl: real)

  datatype Answer = NotSupported | Fresh(value: real) | Stale(value: real) | ProviderDown

  /** A query begins, or the provider answers one: with a value, or not at all. */
  datatype Event = Begin(q: Query) | End(q: Query, result: Option<real>)

  /** `open` holds the queries waiting for the provider, with the cache entry each saw. */
  datatype State = State(
    cache: map<string, Entry>, begun: set<Query>, open: map<Query, Option<Entry>>, answers: map<Query, Answer>)

  const IDLE := State(map[], {}, map[], map[])

  function CacheKey(z: Zone): string {
    "carbon:" + z.country + ":" + z.area
  }

  // ----- cache keys -----

  lemma {:induction false} SplitsAtColon(a: string, b: string, x: string, y: string)
    requires ':' !in a && ':' !in b && a + ":" + x == b + ":" + y
    ensures a == b && x == y
  {
    var k := a + ":" + x;
    assert a != "" ==> k[0] == a[0] && a[0] in a;
    assert b != "" ==> k[0] == b[0] && b[0] in b;
    if a == "" {
      assert k[0] == ':' && k[1..] == x && k[1..] == y;
    } else {
      assert k[1..] == a[1..] + ":" + x && k[1..] == b[1..] + ":" + y;
      SplitsAtColon(a[1..], b[1..], x, y);
    }
  }

  /** Zones with colon-free country codes never share a key. */
  lemma KeysInjective(y: Zone, z: Zone)
    requires ':' !in y.country && ':' !in z.country && CacheKey(y) == CacheKey(z)
    ensures y == z
  {
    assert CacheKey(y)[7..] == y.country + ":" + y.area && CacheKey(z)[7..] == z.country + ":" + z.area;
    SplitsAtColon(y.country, z.country, y.area, z.area);
  }

  /** A country code with a colon always has a zone to collide with. */
  lemma ColonCollides(x: string, y: string, area: string)
    ensures CacheKey(Zone(x + ":" + y, area)) == CacheKey(Zone(x, y + ":" + area))
    ensures Zone(x + ":" + y, area) != Zone(x, y + ":" + area)
  {
    assert "carbon:" + (x + ":" + y) + ":" + area == "carbon:" + x + ":" + (y + ":" + area);
    assert |x + ":" + y| != |x|;
  }

  // ----- the steps -----

  /** Young enough, at a clock reading, to answer without the provider. */
  predicate Young(cfg: Config, e: Option<Entry>, now: real) {
    e.Some? && now - e.value.fetchedAt < cfg.ttl
  }

  function Cached(s: State, z: Zone): Option<Entry> {
    if CacheKey(z) in s.cache then Some(s.cache[CacheKey(z)]) else None
  }

  predicate Enabled(s: State, e: Event) {
    match e
    case Begin(q) => q !in s.begun
    case End(q, _) => q in s.open
  }

  /** An event that is not enabled cannot fire and leaves the state as it is. */
  function Step(cfg: Config, s: State, e: Event): State {
    if !Enabled(s, e) then s else
    match e
    case Begin(q) => BeginStep(cfg, s, q)
    case End(q, result) => EndStep(s, q, result)
  }

  function BeginStep(cfg: Config, s: State, q: Query): State {
    var cached := Cached(s, q.zone);
    if q.zone !in cfg.zones then s.(begun := s.begun + {q}, answers := s.answers[q := NotSupported])
    else if Young(cfg, cached, q.now) then
      s.(begun := s.begun + {q}, answers := s.answers[q := Fresh(cached.value.value)])
    else s.(begun := s.begun + {q}, open := s.open[q := cached])
  }

  function EndStep(s: State, q: Query, result: Option<real>): State
    requires q in s.open
  {
    match result
    case Some(v) =>
      s.(cache := s.cache[CacheKey(q.zone) := Entry(v, q.now)], open := s.open - {q}, answers := s.answers[q := Fresh(v)])
    case None =>
      var a := if s.open[q].Some? then Stale(s.open[q].value.value) else ProviderDown;
      s.(open := s.open - {q}, answers := s.answers[q := a])
  }

  function Run(cfg: Config, h: seq<Event>): State {
    if h == [] then IDLE else Step(cfg, Run(cfg, h[..|h| - 1]), h[|h| - 1])
  }

  // ----- the reference, read off the history: zones in place of keys, no cache -----

  predicate BegunIn(h: seq<Event>, q: Query) {
    exists i | 0 <= i < |h| :: h[i] == Begin(q)
  }

  /** The query whose value was stored last for a zone, in the order the provider answered. */
  function LastStored(cfg: Config, h: seq<Event>, z: Zone): Option<(Query, real)>
    decreases |h|, 0
  {
    if h == [] then None else
      var p, e := h[..|h| - 1], h[|h| - 1];
      if e.End? && e.result.Some? && e.q.zone == z && OpenIn(cfg, p, e.q) then Some((e.q, e.result.value))
      else LastStored(cfg, p, z)
  }

  /** The same as a cache entry: fetched when that query began. */
  function LastEntry(cfg: Config, h: seq<Event>, z: Zone): Option<Entry>
    decreases |h|, 1
  {
    var last := LastStored(cfg, h, z);
    if last.Some? then Some(Entry(last.value.1, last.value.0.now)) else None
  }

  /** A query asks the provider if its zone is supported and no young value was stored for it. */
  predicate Asks(cfg: Config, h: seq<Event>, q: Query)
    decreases |h|, 2
  {
    q.zone in cfg.zones && !Young(cfg, LastEntry(cfg, h, q.zone), q.now)
  }

  /** Asked the provider, and not answered yet. */
  predicate OpenIn(cfg: Config, h: seq<Event>, q: Query)
    decreases |h|, 0
  {
    if h == [] then false else
      var p, e := h[..|h| - 1], h[|h| - 1];
      if OpenIn(cfg, p, q) then !(e.End? && e.q == q)
      else e == Begin(q) && !BegunIn(p, q) && Asks(cfg, p, q)
  }

  /** What was stored last for its zone as the query began. */
  function SeenBy(cfg: Config, h: seq<Event>, q: Query): Option<Entry> {
    if h == [] then None else
      var p := h[..|h| - 1];
      if BegunIn(p, q) then SeenBy(cfg, p, q)
      else if h[|h| - 1] == Begin(q) then LastEntry(cfg, p, q.zone)
      else None
  }

  /** What the provider gave the query: Some(Some(v)) for a value, Some(None) for a failure. */
  function GivenTo(cfg: Config, h: seq<Event>, q: Query): Option<Option<real>> {
    if h == [] then None else
      var p, e := h[..|h| - 1], h[|h| - 1];
      if e.End? && e.q == q && OpenIn(cfg, p, q) then Some(e.result) else GivenTo(cfg, p, q)
  }

  /** What a query that is over answers, given what it saw and what it was given. */
  function Meant(cfg: Config, q: Query, seen: Option<Entry>, given: Option<Option<real>>): Answer {
    if q.zone !in cfg.zones then NotSupported
    else if Young(cfg, seen, q.now) then Fresh(seen.value.value)
    else if given.Some? && given.value.Some? then Fresh(given.value.value)
    else if seen.Some? then Stale(seen.value.value)
    else ProviderDown
  }

  ghost predicate ColonFree(cfg: Config) {
    forall z | z in cfg.zones :: ':' !in z.country
  }

  lemma BegunSnoc(h: seq<Event>, q: Query)
    requires h != []
    ensures BegunIn(h, q) <==> BegunIn(h[..|h| - 1], q) || h[|h| - 1] == Begin(q)
  {
    var p := h[..|h| - 1];
    assert forall i | 0 <= i < |p| :: p[i] == h[i];
    assert h[|h| - 1] == Begin(q) ==> BegunIn(h, q);
    if i :| 0 <= i < |p| && p[i] == Begin(q) {
      assert h[i] == Begin(q);
    }
  }

  // ----- the state is what the history says -----

  /** Everything the state holds about one query. */
  ghost predicate QueryOk(
    cfg: Config, s: State, q: Query, begun: bool, waiting: bool, seen: Option<Entry>, given: Option<Option<real>>)
  {
    && (q in s.begun <==> begun)
    && (q in s.open <==> waiting)
    && (waiting ==> begun && q.zone in cfg.zones && !Young(cfg, seen, q.now) && s.open[q] == seen && given.None?)
    && (q in s.answers <==> begun && !waiting)
    && (q in s.answers ==> s.answers[q] == Meant(cfg, q, seen, given))
    && (!begun ==> given.None? && seen.None?)
  }

  ghost predicate CacheOk(s: State, z: Zone, last: Option<Entry>) {
    Cached(s, z) == last
  }

  lemma OtherQuery(cfg: Config, s: State, e: Event, q: Query, begun: bool, waiting: bool, seen: Option<Entry>, given: Option<Option<real>>)
    requires QueryOk(cfg, s, q, begun, waiting, seen, given) && e.q != q
    ensures QueryOk(cfg, Step(cfg, s, e), q, begun, waiting, seen, given)
  {
  }

  lemma QueryBegins(cfg: Config, s: State, q: Query, last: Option<Entry>)
    requires QueryOk(cfg, s, q, false, false, None, None) && (q.zone in cfg.zones ==> CacheOk(s, q.zone, last))
    ensures QueryOk(cfg, Step(cfg, s, Begin(q)), q, true, q.zone in cfg.zones && !Young(cfg, last, q.now), last, None)
  {
  }

  lemma QueryEnds(cfg: Config, s: State, q: Query, result: Option<real>, seen: Option<Entry>)
    requires QueryOk(cfg, s, q, true, true, seen, None)
    ensures QueryOk(cfg, Step(cfg, s, End(q, result)), q, true, false, seen, Some(result))
  {
  }

  /** A step changes what is cached for a zone exactly when it ends an open query of that zone with a value. */
  lemma CacheStep(cfg: Config, s: State, e: Event, z: Zone, last: Option<Entry>)
    requires ColonFree(cfg) && z in cfg.zones && CacheOk(s, z, last)
    requires e.q in s.open ==> e.q.zone in cfg.zones
    ensures CacheOk(Step(cfg, s, e), z,
                    if e.End? && e.q in s.open && e.result.Some? && e.q.zone == z then Some(Entry(e.result.value, e.q.now))
                    else last)
  {
    if e.End? && e.q in s.open && CacheKey(e.q.zone) == CacheKey(z) {
      KeysInjective(e.q.zone, z);
    }
  }

  lemma {:induction false} Replay(cfg: Config, h: seq<Event>, q: Query)
    requires ColonFree(cfg)
    ensures QueryOk(cfg, Run(cfg, h), q, BegunIn(h, q), OpenIn(cfg, h, q), SeenBy(cfg, h, q), GivenTo(cfg, h, q))
    decreases |h|, 1
  {
    if h == [] {
    } else {
      var p, e := h[..|h| - 1], h[|h| - 1];
      Replay(cfg, p, q);
      BegunSnoc(h, q);
      if e.q != q {
        OtherQuery(cfg, Run(cfg, p), e, q, BegunIn(p, q), OpenIn(cfg, p, q), SeenBy(cfg, p, q), GivenTo(cfg, p, q));
      } else if e.Begin? {
        if !BegunIn(p, q) {
          if q.zone in cfg.zones {
            CacheIsLastStored(cfg, p, q.zone);
          }
          QueryBegins(cfg, Run(cfg, p), q, LastEntry(cfg, p, q.zone));
        }
      } else if OpenIn(cfg, p, q) {
        QueryEnds(cfg, Run(cfg, p), q, e.result, SeenBy(cfg, p, q));
      }
    }
  }

  /** In every interleaving the string-keyed cache holds, for each supported zone, what was stored last for that zone. */
  lemma {:induction false} CacheIsLastStored(cfg: Config, h: seq<Event>, z: Zone)
    requires ColonFree(cfg) && z in cfg.zones
    ensures Cached(Run(cfg, h), z) == LastEntry(cfg, h, z)
    decreases |h|, 0
  {
    if h == [] {
    } else {
      var p, e := h[..|h| - 1], h[|h| - 1];
      CacheIsLastStored(cfg, p, z);
      Replay(cfg, p, e.q);
      CacheStep(cfg, Run(cfg, p), e, z, LastEntry(cfg, p, z));
    }
  }

  // ----- what an answer means -----

  lemma {:induction false} StoredWasGiven(cfg: Config, h: seq<Event>, z: Zone)
    requires LastStored(cfg, h, z).Some?
    ensures var (r, v) := LastStored(cfg, h, z).value;
            r.zone == z && BegunIn(h, r) && !OpenIn(cfg, h, r) && GivenTo(cfg, h, r) == Some(Some(v))
  {
    var p, e := h[..|h| - 1], h[|h| - 1];
    if e.End? && e.result.Some? && e.q.zone == z && OpenIn(cfg, p, e.q) {
      OpenWasBegun(cfg, p, e.q);
      BegunSnoc(h, e.q);
    } else {
      StoredWasGiven(cfg, p, z);
      BegunSnoc(h, LastStored(cfg, p, z).value.0);
    }
  }

  lemma {:induction false} OpenWasBegun(cfg: Config, h: seq<Event>, q: Query)
    ensures OpenIn(cfg, h, q) ==> BegunIn(h, q)
    ensures GivenTo(cfg, h, q).Some? ==> BegunIn(h, q) && !OpenIn(cfg, h, q)
  {
    if h == [] {
    } else {
      OpenWasBegun(cfg, h[..|h| - 1], q);
      BegunSnoc(h, q);
    }
  }

  /** What is given is given for good. */
  lemma {:induction false} GivenStays(cfg: Config, h: seq<Event>, n: nat, q: Query)
    requires n <= |h| && GivenTo(cfg, h[..n], q).Some?
    ensures GivenTo(cfg, h, q) == GivenTo(cfg, h[..n], q)
  {
    if n == |h| {
      assert h[..n] == h;
    } else {
      var p := h[..|h| - 1];
      assert p[..n] == h[..n];
      GivenStays(cfg, p, n, q);
      OpenWasBegun(cfg, p, q);
    }
  }

  /** The query r of zone z was given the entry's value, and began when the entry says. */
  ghost predicate Source(cfg: Config, h: seq<Event>, z: Zone, e: Entry, r: Query) {
    r.zone == z && r.now == e.fetchedAt && GivenTo(cfg, h, r) == Some(Some(e.value))
  }

  /** What a query saw in the cache is a value the provider gave an earlier query of the same zone. */
  lemma {:induction false} SeenWasGiven(cfg: Config, h: seq<Event>, q: Query)
    requires SeenBy(cfg, h, q).Some?
    ensures exists r :: Source(cfg, h, q.zone, SeenBy(cfg, h, q).value, r)
  {
    var p := h[..|h| - 1];
    if BegunIn(p, q) {
      SeenWasGiven(cfg, p, q);
      var r :| Source(cfg, p, q.zone, SeenBy(cfg, p, q).value, r);
      GivenStays(cfg, h, |p|, r);
      assert Source(cfg, h, q.zone, SeenBy(cfg, h, q).value, r);
    } else {
      StoredWasGiven(cfg, p, q.zone);
      var r := LastStored(cfg, p, q.zone).value.0;
      GivenStays(cfg, h, |p|, r);
      assert Source(cfg, h, q.zone, SeenBy(cfg, h, q).value, r);
    }
  }

  /**
   The cache agrees with the provider in every interleaving. A fresh answer is
   a value the provider gave this very query, or one it gave a query of the same
   zone begun less than the time to live before; a stale one is the entry the
   query saw as it began, too old by then, given because the provider failed it.
   */
  lemma AnswersAreFetched(cfg: Config, h: seq<Event>, q: Query)
    requires ColonFree(cfg) && q in Run(cfg, h).answers
    ensures var a, seen := Run(cfg, h).answers[q], SeenBy(cfg, h, q);
            && (a.NotSupported? <==> q.zone !in cfg.zones)
            && (a.Fresh? ==>
                  || GivenTo(cfg, h, q) == Some(Some(a.value))
                  || exists e, r :: Source(cfg, h, q.zone, e, r) && e.value == a.value && q.now - e.fetchedAt < cfg.ttl)
            && (a.Stale? ==>
                  && seen.Some? && a.value == seen.value.value && q.now - seen.value.fetchedAt >= cfg.ttl
                  && GivenTo(cfg, h, q) == Some(None)
                  && exists r :: Source(cfg, h, q.zone, seen.value, r))
            && (a.ProviderDown? ==> seen.None? && GivenTo(cfg, h, q) == Some(None))
  {
    Replay(cfg, h, q);
    if q.zone in cfg.zones && !Young(cfg, SeenBy(cfg, h, q), q.now) {
      OverIsGiven(cfg, h, q);
    }
    if SeenBy(cfg, h, q).Some? {
      SeenWasGiven(cfg, h, q);
    }
  }

  /** A query that had to ask is over only when it has been given something. */
  lemma {:induction false} OverIsGiven(cfg: Config, h: seq<Event>, q: Query)
    requires BegunIn(h, q) && !OpenIn(cfg, h, q) && q.zone in cfg.zones && !Young(cfg, SeenBy(cfg, h, q), q.now)
    ensures GivenTo(cfg, h, q).Some?
  {
    var p, e := h[..|h| - 1], h[|h| - 1];
    BegunSnoc(h, q);
    if BegunIn(p, q) && !OpenIn(cfg, p, q) {
      OverIsGiven(cfg, p, q);
    }
  }

  // ----- how often the provider is asked -----

  ghost predicate ClockMonotone(h: seq<Event>) {
    forall i, j | 0 <= i < j < |h| && h[i].Begin? && h[j].Begin? :: h[i].q.now <= h[j].q.now
  }

  predicate StoredIn(cfg: Config, h: seq<Event>, q: Query) {
    GivenTo(cfg, h, q).Some? && GivenTo(cfg, h, q).value.Some?
  }

  /** The query asked the provider and has not been failed by it. */
  predicate Unfailed(cfg: Config, h: seq<Event>, q: Query) {
    OpenIn(cfg, h, q) || StoredIn(cfg, h, q)
  }

  ghost predicate BeginsAt(h: seq<Event>, q: Query, i: int) {
    0 <= i < |h| && h[i] == Begin(q) && !BegunIn(h[..i], q)
  }

  /** r was waiting for the provider as x began. */
  ghost predicate OpenWhen(cfg: Config, h: seq<Event>, r: Query, x: Query) {
    exists i :: BeginsAt(h, x, i) && OpenIn(cfg, h[..i], r)
  }

  lemma OpenWhenPrefix(cfg: Config, h: seq<Event>, r: Query, x: Query)
    requires h != [] && OpenWhen(cfg, h[..|h| - 1], r, x)
    ensures OpenWhen(cfg, h, r, x)
  {
    var p := h[..|h| - 1];
    var i :| BeginsAt(p, x, i) && OpenIn(cfg, p[..i], r);
    assert p[..i] == h[..i] && h[i] == p[i];
    assert BeginsAt(h, x, i);
  }

  /** A query still open that began on an earlier clock reading was open when the later one began. */
  lemma {:induction false} OpenAcross(cfg: Config, h: seq<Event>, r: Query, x: Query)
    requires ClockMonotone(h) && OpenIn(cfg, h, r) && BegunIn(h, x) && r.now < x.now
    ensures OpenWhen(cfg, h, r, x)
  {
    var n := |h| - 1;
    var p, e := h[..n], h[n];
    assert forall i | 0 <= i < n :: p[i] == h[i];
    BegunSnoc(h, x);
    if BegunIn(p, x) {
      var i :| 0 <= i < n && p[i] == Begin(x);
      assert h[i] == Begin(x);
      assert OpenIn(cfg, p, r);
      OpenAcross(cfg, p, r, x);
      OpenWhenPrefix(cfg, h, r, x);
    } else {
      assert BeginsAt(h, x, n);
    }
  }

  /** If a stored value is no longer the last one stored, it was replaced by a later query's or by one open when its own began. */
  lemma {:induction false} ReplacedBy(cfg: Config, h: seq<Event>, x: Query)
    requires ClockMonotone(h) && StoredIn(cfg, h, x)
    ensures LastStored(cfg, h, x.zone).Some?
    ensures var r := LastStored(cfg, h, x.zone).value.0; r.now >= x.now || OpenWhen(cfg, h, r, x)
  {
    var p, e := h[..|h| - 1], h[|h| - 1];
    assert forall i | 0 <= i < |p| :: p[i] == h[i];
    if !(e.End? && e.q == x && OpenIn(cfg, p, x)) {
      ReplacedBy(cfg, p, x);
      var r := LastStored(cfg, h, x.zone).value.0;
      if r.now < x.now {
        if e.End? && e.result.Some? && e.q == r && OpenIn(cfg, p, r) {
          OpenWasBegun(cfg, p, x);
          OpenAcross(cfg, p, r, x);
        }
        OpenWhenPrefix(cfg, h, r, x);
      }
    }
  }

  /** x's value was stored and then replaced by one too old for y, of a query that was open as x began. */
  ghost predicate Overtaken(cfg: Config, h: seq<Event>, x: Query, y: Query) {
    && StoredIn(cfg, h, x) && LastStored(cfg, h, x.zone).Some?
    && var r := LastStored(cfg, h, x.zone).value.0;
       r.now < x.now && y.now - r.now >= cfg.ttl && OpenWhen(cfg, h, r, x)
  }

  /**
   When two fetches come close. Let y begin, less than the time to live after x
   asked for the same zone, x not failed. If x's value has been stored, y asks if and only
   if it was overtaken; if x is still open, if and only if no third query's value is stored and young.
   */
  lemma AsksAgainIff(cfg: Config, h: seq<Event>, x: Query, y: Query)
    requires ClockMonotone(h) && Unfailed(cfg, h, x) && y.zone == x.zone && y.zone in cfg.zones && y.now - x.now < cfg.ttl
    ensures var last := LastStored(cfg, h, x.zone);
            Asks(cfg, h, y) <==>
              if StoredIn(cfg, h, x) then Overtaken(cfg, h, x, y)
              else last.None? || y.now - last.value.0.now >= cfg.ttl
  {
    if StoredIn(cfg, h, x) {
      ReplacedBy(cfg, h, x);
    }
  }

  /** No query asks while another of its zone is waiting for the provider. */
  ghost predicate OneAtATime(cfg: Config, h: seq<Event>) {
    forall x: Query, y: Query, j :: BeginsAt(h, y, j) && Asks(cfg, h[..j], y) && x.zone == y.zone ==> !OpenIn(cfg, h[..j], x)
  }

  lemma {:induction false} AskedAsItBegan(cfg: Config, h: seq<Event>, x: Query, i: int)
    requires BeginsAt(h, x, i) && Unfailed(cfg, h, x)
    ensures Asks(cfg, h[..i], x)
  {
    var p := h[..|h| - 1];
    if i == |h| - 1 {
      OpenWasBegun(cfg, p, x);
    } else {
      assert p[..i] == h[..i] && p[i] == h[i];
      assert BegunIn(p, x);
      assert Unfailed(cfg, p, x);
      AskedAsItBegan(cfg, p, x, i);
    }
  }

  /** One query of a zone at a time, fetches that do not fail are at least a time to live apart. */
  lemma FetchesAreSpaced(cfg: Config, h: seq<Event>, x: Query, y: Query, j: int)
    requires ClockMonotone(h) && OneAtATime(cfg, h)
    requires BeginsAt(h, y, j) && Asks(cfg, h[..j], y) && x.zone == y.zone && Unfailed(cfg, h[..j], x)
    ensures y.now - x.now >= cfg.ttl
  {
    var p := h[..j];
    if y.now - x.now < cfg.ttl {
      assert ClockMonotone(p);
      AsksAgainIff(cfg, p, x, y);
      assert !OpenIn(cfg, p, x);
      StoredWasGiven(cfg, p, x.zone);
      var r := LastStored(cfg, p, x.zone).value.0;
      var i :| BeginsAt(p, x, i) && OpenIn(cfg, p[..i], r);
      assert p[..i] == h[..i] && p[i] == h[i];
      assert BeginsAt(h, x, i);
      AskedAsItBegan(cfg, p, x, i);
    }
  }

  lemma OneAtATimePrefix(cfg: Config, h: seq<Event>)
    requires h != [] && OneAtATime(cfg, h)
    ensures OneAtATime(cfg, h[..|h| - 1])
  {
    var p := h[..|h| - 1];
    forall x: Query, y: Query, j | BeginsAt(p, y, j) && Asks(cfg, p[..j], y) && x.zone == y.zone
      ensures !OpenIn(cfg, p[..j], x)
    {
      assert p[..j] == h[..j] && p[j] == h[j];
      assert BeginsAt(h, y, j);
    }
  }

  lemma {:induction false} OneOpen(cfg: Config, h: seq<Event>, x: Query, y: Query)
    requires OneAtATime(cfg, h) && x.zone == y.zone && OpenIn(cfg, h, x) && OpenIn(cfg, h, y)
    ensures x == y
  {
    var n := |h| - 1;
    var p, e := h[..n], h[n];
    OneAtATimePrefix(cfg, h);
    if OpenIn(cfg, p, x) && OpenIn(cfg, p, y) {
      OneOpen(cfg, p, x, y);
    } else {
      assert e == Begin(x) ==> BeginsAt(h, x, n) || OpenIn(cfg, p, x);
      assert e == Begin(y) ==> BeginsAt(h, y, n) || OpenIn(cfg, p, y);
    }
  }

  /** One query of a zone at a time, an open one still sees what is stored: its stale answer would be the last fetch. */
  lemma {:induction false} StaleIsLastStored(cfg: Config, h: seq<Event>, b: Query)
    requires OneAtATime(cfg, h) && OpenIn(cfg, h, b)
    ensures SeenBy(cfg, h, b) == LastEntry(cfg, h, b.zone)
  {
    var p, e := h[..|h| - 1], h[|h| - 1];
    OpenWasBegun(cfg, p, b);
    if OpenIn(cfg, p, b) {
      OneAtATimePrefix(cfg, h);
      StaleIsLastStored(cfg, p, b);
      if e.End? && e.q.zone == b.zone && OpenIn(cfg, p, e.q) {
        OneOpen(cfg, p, e.q, b);
      }
    }
  }

  /** The provider's value for an open query of the zone is stored at that point of the run. */
  ghost predicate StoresAt(cfg: Config, h: seq<Event>, z: Zone, k: int) {
    0 <= k < |h| && h[k].End? && h[k].result.Some? && h[k].q.zone == z && OpenIn(cfg, h[..k], h[k].q)
  }

  lemma {:induction false} SeenAsItBegan(cfg: Config, h: seq<Event>, b: Query, i: int)
    requires BeginsAt(h, b, i)
    ensures SeenBy(cfg, h, b) == LastEntry(cfg, h[..i], b.zone)
  {
    var p := h[..|h| - 1];
    if i == |h| - 1 {
    } else {
      assert p[..i] == h[..i] && p[i] == h[i];
      assert BegunIn(p, b);
      SeenAsItBegan(cfg, p, b, i);
    }
  }

  /** Once something is stored after position i, what is stored last is of a query not given anything by then. */
  lemma {:induction false} LaterStore(cfg: Config, h: seq<Event>, z: Zone, i: nat, k: int)
    requires i <= k && StoresAt(cfg, h, z, k)
    ensures LastStored(cfg, h, z).Some? && GivenTo(cfg, h[..i], LastStored(cfg, h, z).value.0).None?
  {
    var n := |h| - 1;
    var p, e := h[..n], h[n];
    if StoresAt(cfg, h, z, n) {
      assert p[..i] == h[..i];
      if GivenTo(cfg, p[..i], e.q).Some? {
        GivenStays(cfg, p, i, e.q);
        OpenWasBegun(cfg, p, e.q);
      }
    } else {
      assert p[..k] == h[..k] && p[k] == h[k] && p[..i] == h[..i];
      assert StoresAt(cfg, p, z, k);
      LaterStore(cfg, p, z, i, k);
    }
  }

  lemma {:induction false} NoLaterStore(cfg: Config, h: seq<Event>, z: Zone, i: nat)
    requires i <= |h| && forall k | i <= k < |h| :: !StoresAt(cfg, h, z, k)
    ensures LastStored(cfg, h, z) == LastStored(cfg, h[..i], z)
  {
    if i == |h| {
      assert h[..i] == h;
    } else {
      var n := |h| - 1;
      var p := h[..n];
      forall k | i <= k < n ensures !StoresAt(cfg, p, z, k) {
        assert p[..k] == h[..k] && p[k] == h[k];
        assert !StoresAt(cfg, h, z, k);
      }
      assert !StoresAt(cfg, h, z, n) && p[..i] == h[..i];
      NoLaterStore(cfg, p, z, i);
    }
  }

  /**
   A query answers stale with what was stored last as it began; that is still what
   is stored last if and only if nothing was stored for its zone in between.
   */
  lemma StaleIsLastIff(cfg: Config, h: seq<Event>, b: Query, i: nat)
    requires BeginsAt(h, b, i)
    ensures SeenBy(cfg, h, b) == LastEntry(cfg, h[..i], b.zone)
    ensures LastStored(cfg, h, b.zone) == LastStored(cfg, h[..i], b.zone) <==> forall k | i <= k < |h| :: !StoresAt(cfg, h, b.zone, k)
  {
    SeenAsItBegan(cfg, h, b, i);
    if k :| i <= k < |h| && StoresAt(cfg, h, b.zone, k) {
      LaterStore(cfg, h, b.zone, i, k);
      if LastStored(cfg, h[..i], b.zone).Some? {
        StoredWasGiven(cfg, h[..i], b.zone);
      }
    } else {
      NoLaterStore(cfg, h, b.zone, i);
    }
  }

  // ----- when the cache holds the youngest value -----

  /** No value stored for the zone is of a younger query than the one stored last. */
  ghost predicate HoldsYoungest(cfg: Config, h: seq<Event>, z: Zone) {
    forall k :: StoresAt(cfg, h, z, k) ==>
      LastStored(cfg, h, z).Some? && h[k].q.now <= LastStored(cfg, h, z).value.0.now
  }

  ghost predicate AlwaysYoungest(cfg: Config, h: seq<Event>, z: Zone) {
    forall n | 0 <= n <= |h| :: HoldsYoungest(cfg, h[..n], z)
  }

  /** The provider's values for a zone are stored in the order their queries began. */
  ghost predicate StoresInOrder(cfg: Config, h: seq<Event>, z: Zone) {
    forall i, k :: i < k && StoresAt(cfg, h, z, i) && StoresAt(cfg, h, z, k) ==> h[i].q.now <= h[k].q.now
  }

  lemma StoresPrefix(cfg: Config, h: seq<Event>, z: Zone, n: nat, k: int)
    requires n <= |h| && k < n
    ensures StoresAt(cfg, h[..n], z, k) <==> StoresAt(cfg, h, z, k)
  {
    if 0 <= k {
      assert h[..n][..k] == h[..k] && h[..n][k] == h[k];
    }
  }

  /** One event more keeps the youngest value in the cache if and only if it does not store an older one. */
  lemma YoungestStep(cfg: Config, h: seq<Event>, z: Zone)
    requires h != [] && HoldsYoungest(cfg, h[..|h| - 1], z)
    ensures var n := |h| - 1;
            HoldsYoungest(cfg, h, z) <==>
              (StoresAt(cfg, h, z, n) ==> forall i | 0 <= i < n && StoresAt(cfg, h, z, i) :: h[i].q.now <= h[n].q.now)
  {
    var n := |h| - 1;
    forall k | 0 <= k < n ensures StoresAt(cfg, h[..n], z, k) <==> StoresAt(cfg, h, z, k) {
      StoresPrefix(cfg, h, z, n, k);
    }
    assert forall k :: StoresAt(cfg, h, z, k) && k != n ==> 0 <= k < n && h[..n][k] == h[k];
    if StoresAt(cfg, h, z, n) {
      assert LastStored(cfg, h, z).value.0 == h[n].q;
    } else {
      assert LastStored(cfg, h, z) == LastStored(cfg, h[..n], z);
    }
  }

  lemma AlwaysSnoc(cfg: Config, h: seq<Event>, z: Zone)
    requires h != []
    ensures AlwaysYoungest(cfg, h, z) <==> AlwaysYoungest(cfg, h[..|h| - 1], z) && HoldsYoungest(cfg, h, z)
  {
    var m := |h| - 1;
    assert forall n | 0 <= n <= m :: h[..m][..n] == h[..n];
    assert h[..|h|] == h;
    assert AlwaysYoungest(cfg, h, z) ==> HoldsYoungest(cfg, h[..|h|], z);
  }

  lemma InOrderSnoc(cfg: Config, h: seq<Event>, z: Zone)
    requires h != []
    ensures var n := |h| - 1;
            StoresInOrder(cfg, h, z) <==>
              && StoresInOrder(cfg, h[..n], z)
              && (StoresAt(cfg, h, z, n) ==> forall i | 0 <= i < n && StoresAt(cfg, h, z, i) :: h[i].q.now <= h[n].q.now)
  {
    var n := |h| - 1;
    forall k | 0 <= k < n ensures (StoresAt(cfg, h[..n], z, k) <==> StoresAt(cfg, h, z, k)) && h[..n][k] == h[k] {
      StoresPrefix(cfg, h, z, n, k);
    }
  }

  /**
   The cache holds the youngest value stored for a zone throughout a run if and
   only if values are stored in the order their queries began.
   */
  lemma {:induction false} YoungestIffInOrder(cfg: Config, h: seq<Event>, z: Zone)
    ensures AlwaysYoungest(cfg, h, z) <==> StoresInOrder(cfg, h, z)
  {
    if h == [] {
    } else {
      YoungestIffInOrder(cfg, h[..|h| - 1], z);
      AlwaysSnoc(cfg, h, z);
      InOrderSnoc(cfg, h, z);
      assert h[..|h| - 1][..|h| - 1] == h[..|h| - 1];
      if AlwaysYoungest(cfg, h[..|h| - 1], z) {
        YoungestStep(cfg, h, z);
      }
    }
  }

  /** Under a monotone clock a value stored after a younger one is of a query that was open as the younger one's began. */
  lemma OutOfOrderMeansCrossed(cfg: Config, h: seq<Event>, z: Zone, i: nat, k: nat)
    requires ClockMonotone(h) && i < k && StoresAt(cfg, h, z, i) && StoresAt(cfg, h, z, k) && h[k].q.now < h[i].q.now
    ensures OpenWhen(cfg, h[..k], h[k].q, h[i].q)
  {
    OpenWasBegun(cfg, h[..i], h[i].q);
    var b :| 0 <= b < i && h[..i][b] == Begin(h[i].q);
    assert h[..k][b] == Begin(h[i].q);
    OpenAcross(cfg, h[..k], h[k].q, h[i].q);
  }

  // ----- overlapping queries: what does go wrong -----

  lemma RunSnoc(cfg: Config, h: seq<Event>, e: Event)
    ensures Run(cfg, h + [e]) == Step(cfg, Run(cfg, h), e)
  {
    assert (h + [e])[..|h|] == h;
  }

  /** Two queries that overlap on an empty cache both ask. */
  lemma OverlappingQueriesBothAsk(cfg: Config, x: Query, y: Query)
    requires x != y && x.zone == y.zone && x.zone in cfg.zones
    ensures var s := Run(cfg, [] + [Begin(x)] + [Begin(y)]); x in s.open && y in s.open
  {
    RunSnoc(cfg, [], Begin(x));
    RunSnoc(cfg, [] + [Begin(x)], Begin(y));
  }

  /** The slower of two overlapping queries leaves its older entry in the cache. */
  lemma SlowQueryOverwrites(cfg: Config, r: Query, x: Query, v: real, w: real)
    requires r != x && r.zone == x.zone && r.zone in cfg.zones && r.now < x.now
    ensures var h := [] + [Begin(r)] + [Begin(x)] + [End(x, Some(v))] + [End(r, Some(w))];
            Cached(Run(cfg, h), r.zone) == Some(Entry(w, r.now))
  {
    var h := [] + [Begin(r)] + [Begin(x)] + [End(x, Some(v))];
    OverlappingQueriesBothAsk(cfg, r, x);
    RunSnoc(cfg, [] + [Begin(r)] + [Begin(x)], End(x, Some(v)));
    RunSnoc(cfg, h, End(r, Some(w)));
  }

  lemma OpenedOnOldEntry(cfg: Config, o: Query, a: Query, b: Query, u: real)
    requires o != a && o != b && a != b && o.zone == a.zone == b.zone && o.zone in cfg.zones
    requires a.now - o.now >= cfg.ttl && b.now - o.now >= cfg.ttl
    ensures var s := Run(cfg, [] + [Begin(o)] + [End(o, Some(u))] + [Begin(b)] + [Begin(a)]);
            a in s.open && b in s.open && s.open[b] == Some(Entry(u, o.now))
  {
    var h := [] + [Begin(o)] + [End(o, Some(u))];
    RunSnoc(cfg, [], Begin(o));
    RunSnoc(cfg, [] + [Begin(o)], End(o, Some(u)));
    RunSnoc(cfg, h, Begin(b));
    RunSnoc(cfg, h + [Begin(b)], Begin(a));
  }

  /** A query failed by the provider gives a stale value though a younger one has been stored since it began. */
  lemma StaleThoughFetched(cfg: Config, o: Query, a: Query, b: Query, u: real, v: real)
    requires o != a && o != b && a != b && o.zone == a.zone == b.zone && o.zone in cfg.zones
    requires a.now - o.now >= cfg.ttl && b.now - o.now >= cfg.ttl
    ensures var h := [] + [Begin(o)] + [End(o, Some(u))] + [Begin(b)] + [Begin(a)] + [End(a, Some(v))] + [End(b, None)];
            var s := Run(cfg, h);
            && b in s.answers && s.answers[b] == Stale(u)
            && Cached(s, b.zone) == Some(Entry(v, a.now))
  {
    var h := [] + [Begin(o)] + [End(o, Some(u))] + [Begin(b)] + [Begin(a)];
    OpenedOnOldEntry(cfg, o, a, b, u);
    RunSnoc(cfg, h, End(a, Some(v)));
    RunSnoc(cfg, h + [End(a, Some(v))], End(b, None));
  }

  // ----- zones do not affect each other -----

  function OnZone(h: seq<Event>, z: Zone): seq<Event> {
    if h == [] then [] else OnZone(h[..|h| - 1], z) + if h[|h| - 1].q.zone == z then [h[|h| - 1]] else []
  }

  lemma {:induction false} ZoneReplay(cfg: Config, h: seq<Event>, q: Query)
    ensures var own := OnZone(h, q.zone);
            && (BegunIn(own, q) <==> BegunIn(h, q)) && (OpenIn(cfg, own, q) <==> OpenIn(cfg, h, q))
            && LastStored(cfg, own, q.zone) == LastStored(cfg, h, q.zone)
            && SeenBy(cfg, own, q) == SeenBy(cfg, h, q) && GivenTo(cfg, own, q) == GivenTo(cfg, h, q)
  {
    if h == [] {
    } else {
      var p, e := h[..|h| - 1], h[|h| - 1];
      var before, own := OnZone(p, q.zone), OnZone(h, q.zone);
      ZoneReplay(cfg, p, q);
      BegunSnoc(h, q);
      if e.q.zone == q.zone {
        ZoneReplay(cfg, p, e.q);
        assert own[..|own| - 1] == before && own[|own| - 1] == e;
        assert LastEntry(cfg, before, q.zone) == LastEntry(cfg, p, q.zone);
        assert Asks(cfg, before, q) <==> Asks(cfg, p, q);
        BegunSnoc(own, q);
      } else {
        assert own == before;
      }
    }
  }

  /** In every interleaving a query is answered as if only queries of its own zone had ever been made. */
  lemma ZonesAreIndependent(cfg: Config, h: seq<Event>, q: Query)
    requires ColonFree(cfg)
    ensures var s, own := Run(cfg, h), Run(cfg, OnZone(h, q.zone));
            && (q in s.answers <==> q in own.answers)
            && (q in s.answers ==> s.answers[q] == own.answers[q])
  {
    Replay(cfg, h, q);
    Replay(cfg, OnZone(h, q.zone), q);
    ZoneReplay(cfg, h, q);
  }

  // ----- the service: one method per part of `get_intensity` that runs without suspending -----

  class CarbonIntensityService {
    const cfg: Config
    var entries: map<string, Entry>
    var open: map<Query, Option<Entry>>
    var answers: map<Query, Answer>
    ghost var begun: set<Query>
    ghost var history: seq<Event>

    ghost function Snapshot(): State
      reads this
    {
      State(entries, begun, open, answers)
    }

    ghost predicate Valid()
      reads this
    {
      Snapshot() == Run(cfg, history)
    }

    constructor (cfg: Config)
      ensures Valid() && history == [] && this.cfg == cfg
    {
      this.cfg := cfg;
      entries, open, answers := map[], map[], map[];
      begun, history := {}, [];
    }

    ghost method Log(e: Event)
      requires Snapshot() == Step(cfg, Run(cfg, history), e)
      modifies this`history
      ensures Valid() && history == old(history) + [e]
    {
      history := history + [e];
      assert history[..|history| - 1] == old(history);
    }

    /** Up to the provider: the answer if the zone is unsupported or the cache is young, None if the provider is asked. */
    method BeginQuery(q: Query) returns (a: Option<Answer>)
      requires Valid() && q !in begun
      modifies this
      ensures Valid() && history == old(history) + [Begin(q)]
      ensures if a.None? then q in open else q in answers && answers[q] == a.value
    {
      var k := "carbon:" + q.zone.country + ":" + q.zone.area;
      begun := begun + {q};
      if q.zone !in cfg.zones {
        a := Some(NotSupported);
        answers := answers[q := NotSupported];
      } else if k in entries && q.now - entries[k].fetchedAt < cfg.ttl {
        a := Some(Fresh(entries[k].value));
        answers := answers[q := Fresh(entries[k].value)];
      } else {
        a := None;
        open := open[q := if k in entries then Some(entries[k]) else None];
      }
      Log(Begin(q));
    }

    /** From the provider on: a value is stored and returned, a failure falls back on what was seen. */
    method EndQuery(q: Query, result: Option<real>) returns (a: Answer)
      requires Valid() && q in open
      modifies this
      ensures Valid() && history == old(history) + [End(q, result)]
      ensures q in answers && answers[q] == a
    {
      var cached := open[q];
      if result.None? {
        a := if cached.Some? then Stale(cached.value.value) else ProviderDown;
      } else {
        var k := "carbon:" + q.zone.country + ":" + q.zone.area;
        entries := entries[k := Entry(result.value, q.now)];
        a := Fresh(result.value);
      }
      open := open - {q};
      answers := answers[q := a];
      Log(End(q, result));
    }
  }
}
