/**
 * The stale-while-revalidate cache of the dashboard (brainrouter-dashboard/lib/dashboardQuery.ts).
 * Entries are objects: an invalidation removes an entry from the map, but a fetch that is still
 * running keeps updating the removed object. Indices stand for entries and fetches.
 */
module DashboardQueries {
  import opened Common

  type Value = string

  /** A value remembers the fetch that brought it. */
  datatype Held = Held(value: Value, source: nat)

  datatype Entry = Entry(key: string, held: Option<Held>, updatedAt: int, inflight: Option<nat>)

  /** Begun, answered (`then` has run), or over (`finally` has run too). */
  datatype Progress = Begun | Answered | Over

  datatype Fetch = Fetch(key: string, entry: nat, begunAt: nat, progress: Progress)

  datatype Invalidation = Invalidation(prefix: string, at: nat)

  /** `time` counts events; `invalidations` records what was invalidated when. */
  datatype Cache = Cache(
    queries: map<string, nat>,
    entries: seq<Entry>,
    fetches: seq<Fetch>,
    time: nat,
    invalidations: seq<Invalidation>
  )

  /** A query is answered at once with a held value, or with the promise of a fetch. */
  datatype Answer = Now(held: Held) | Later(fetch: nat)

  datatype Event =
    | Query(key: string, force: bool, now: int, ttlMs: int)
    | Resolves(fetch: nat, value: Option<Value>, now: int)
    | Rejects(fetch: nat)
    | Finishes(fetch: nat)
    | Invalidate(prefix: string)
    | Clear

  ghost predicate Wf(c: Cache) {
    && (forall k <- c.queries :: c.queries[k] < |c.entries|)
    && (forall f :: 0 <= f < |c.fetches| ==> c.fetches[f].entry < |c.entries|)
  }

  /** `queries.get(key) ?? { updatedAt: 0 }`, put back under the key. */
  function Enter(c: Cache, key: string): Cache {
    if key in c.queries then c
    else c.(queries := c.queries[key := |c.entries|], entries := c.entries + [Entry(key, None, 0, None)])
  }

  /** `refresh`: join the entry's fetch in flight or begin one. */
  function Refresh(c: Cache, e: nat): (Cache, nat)
    requires e < |c.entries|
  {
    var entry := c.entries[e];
    if entry.inflight.Some? then (c, entry.inflight.value)
    else
      var f := |c.fetches|;
      (c.(fetches := c.fetches + [Fetch(entry.key, e, c.time, Begun)],
        entries := c.entries[e := entry.(inflight := Some(f))]), f)
  }

  /** `queryDashboard` */
  function Ask(c: Cache, key: string, force: bool, now: int, ttlMs: int): (Cache, Answer)
    requires Wf(c)
  {
    var c1 := Enter(c, key);
    var e := c1.queries[key];
    var entry := c1.entries[e];
    if !force && entry.held.Some? then
      (if now - entry.updatedAt >= ttlMs then Refresh(c1, e).0 else c1, Now(entry.held.value))
    else
      var (c2, f) := Refresh(c1, e);
      (c2, Later(f))
  }

  function SetFetch(c: Cache, f: nat, p: Progress): Cache
    requires f < |c.fetches|
  {
    c.(fetches := c.fetches[f := c.fetches[f].(progress := p)])
  }

  /** The `then` of a fetch; a fetch that resolves to `undefined` leaves the entry without a value. */
  function Resolve(c: Cache, f: nat, value: Option<Value>, now: int): Cache
    requires Wf(c) && f < |c.fetches|
  {
    var e := c.fetches[f].entry;
    var held := if value.Some? then Some(Held(value.value, f)) else None;
    SetFetch(c, f, Answered).(entries := c.entries[e := c.entries[e].(held := held, updatedAt := now)])
  }

  /** The `finally` of a fetch. */
  function Finish(c: Cache, f: nat): Cache
    requires Wf(c) && f < |c.fetches|
  {
    var e := c.fetches[f].entry;
    var c1 := SetFetch(c, f, Over);
    if c.entries[e].inflight == Some(f) then c1.(entries := c.entries[e := c.entries[e].(inflight := None)]) else c1
  }

  function Drop(c: Cache, prefix: string): Cache {
    c.(queries := map k | k in c.queries && !(prefix <= k) :: c.queries[k],
      invalidations := c.invalidations + [Invalidation(prefix, c.time)])
  }

  function Tick(c: Cache): Cache {
    c.(time := c.time + 1)
  }

  /** Events that are not possible in a state change nothing but the time. */
  ghost function Step(c: Cache, ev: Event): Cache
    requires Wf(c)
  {
    Tick(match ev
      case Query(key, force, now, ttlMs) => Ask(c, key, force, now, ttlMs).0
      case Resolves(f, value, now) =>
        if f < |c.fetches| && c.fetches[f].progress.Begun? then Resolve(c, f, value, now) else c
      case Rejects(f) => if f < |c.fetches| && c.fetches[f].progress.Begun? then SetFetch(c, f, Answered) else c
      case Finishes(f) => if f < |c.fetches| && c.fetches[f].progress.Answered? then Finish(c, f) else c
      case Invalidate(prefix) => Drop(c, prefix)
      case Clear => Drop(c, ""))
  }

  // ---------------------------------------------------------------------------------------
  // Invariant
  // ---------------------------------------------------------------------------------------

  predicate Live(c: Cache, e: nat)
    requires e < |c.entries|
  {
    c.entries[e].key in c.queries && c.queries[c.entries[e].key] == e
  }

  predicate Covers(i: Invalidation, key: string) {
    i.prefix <= key
  }

  /** Some invalidation of the key falls between the two times. */
  predicate Separated(c: Cache, key: string, since: nat, until: nat) {
    exists i :: 0 <= i < |c.invalidations| && Covers(c.invalidations[i], key) && since <= c.invalidations[i].at <= until
  }

  /** Entries, fetches and held values refer to each other consistently. */
  ghost predicate Linked(c: Cache) {
    && Wf(c)
    && (forall k <- c.queries :: c.entries[c.queries[k]].key == k)
    && (forall f :: 0 <= f < |c.fetches| ==>
        c.fetches[f].key == c.entries[c.fetches[f].entry].key && c.fetches[f].begunAt <= c.time)
    && (forall e :: 0 <= e < |c.entries| && c.entries[e].inflight.Some? ==>
          && c.entries[e].inflight.value < |c.fetches| && c.fetches[c.entries[e].inflight.value].entry == e
          && !c.fetches[c.entries[e].inflight.value].progress.Over?)
    && (forall e :: 0 <= e < |c.entries| && c.entries[e].held.Some? ==>
          c.entries[e].held.value.source < |c.fetches| && c.fetches[c.entries[e].held.value.source].entry == e)
    && (forall f :: 0 <= f < |c.fetches| && !c.fetches[f].progress.Over? ==>
        c.entries[c.fetches[f].entry].inflight == Some(f))
  }

  /**
   * The fetches of an entry in the map began after every invalidation of its key, those of a removed one
   * before some.
   */
  ghost predicate Generations(c: Cache)
    requires Wf(c)
  {
    && (forall i :: 0 <= i < |c.invalidations| ==> c.invalidations[i].at < c.time)
    && (forall f, i :: 0 <= f < |c.fetches| && 0 <= i < |c.invalidations| ==>
          (Live(c, c.fetches[f].entry) && Covers(c.invalidations[i], c.fetches[f].key) ==>
            c.invalidations[i].at < c.fetches[f].begunAt))
    && (forall f :: 0 <= f < |c.fetches| && !Live(c, c.fetches[f].entry) ==>
        Separated(c, c.fetches[f].key, c.fetches[f].begunAt, c.time))
  }

  /** Fetches of one key on different entries are separated by an invalidation of the key. */
  ghost predicate Apart(c: Cache) {
    forall f, g ::
      (&& 0 <= f < g < |c.fetches|
       && c.fetches[f].key == c.fetches[g].key
       && c.fetches[f].entry != c.fetches[g].entry) ==>
      Separated(c, c.fetches[f].key, c.fetches[f].begunAt, c.fetches[g].begunAt)
  }

  ghost predicate Inv(c: Cache) {
    Linked(c) && Generations(c) && Apart(c)
  }

  function NewCache(): (c: Cache)
    ensures Inv(c)
  {
    Cache(map[], [], [], 0, [])
  }

  lemma EnterLinks(c: Cache, key: string)
    requires Inv(c) && key !in c.queries
    ensures Linked(Enter(c, key))
  {
    hide Generations, Apart;
  }

  lemma EnterKeeps(c: Cache, key: string)
    requires Inv(c)
    ensures var c1 := Enter(c, key); Inv(c1) && key in c1.queries && Live(c1, c1.queries[key]) && c1.time == c.time
    ensures Enter(c, key).invalidations == c.invalidations && Enter(c, key).fetches == c.fetches
  {
    if key !in c.queries {
      EnterLinks(c, key);
      var c1 := Enter(c, key);
      hide Separated;
      assert forall f :: 0 <= f < |c.fetches| ==> Live(c1, c.fetches[f].entry) == Live(c, c.fetches[f].entry);
      forall f | 0 <= f < |c1.fetches| && !Live(c1, c1.fetches[f].entry)
        ensures Separated(c1, c1.fetches[f].key, c1.fetches[f].begunAt, c1.time)
      {
        SeparatedSame(c, c1, c.fetches[f].key, c.fetches[f].begunAt, c.time);
      }
      forall f, g | 0 <= f < g < |c1.fetches| && c1.fetches[f].key == c1.fetches[g].key
        && c1.fetches[f].entry != c1.fetches[g].entry
        ensures Separated(c1, c1.fetches[f].key, c1.fetches[f].begunAt, c1.fetches[g].begunAt)
      {
        SeparatedSame(c, c1, c.fetches[f].key, c.fetches[f].begunAt, c.fetches[g].begunAt);
      }
    }
  }

  lemma SeparatedSame(c: Cache, c': Cache, key: string, since: nat, until: nat)
    requires c'.invalidations == c.invalidations
    ensures Separated(c, key, since, until) == Separated(c', key, since, until)
  {}

  lemma RefreshLinks(c: Cache, e: nat)
    requires Inv(c) && e < |c.entries|
    ensures var (c1, f) := Refresh(c, e);
      Linked(c1) && f < |c1.fetches| && c1.fetches[f].entry == e && c1.fetches[f].key == c.entries[e].key
    ensures |Refresh(c, e).0.entries| == |c.entries| && c.fetches <= Refresh(c, e).0.fetches
    ensures forall k :: 0 <= k < |c.entries| ==>
      Refresh(c, e).0.entries[k].held == c.entries[k].held && Refresh(c, e).0.entries[k].key == c.entries[k].key
  {
    hide Generations, Apart;
  }

  lemma RefreshKeeps(c: Cache, e: nat)
    requires Inv(c) && e < |c.entries| && Live(c, e)
    ensures var (c1, f) := Refresh(c, e);
      Inv(c1) && f < |c1.fetches| && c1.fetches[f].entry == e && c1.fetches[f].key == c.entries[e].key
    ensures Refresh(c, e).0.time == c.time && Refresh(c, e).0.queries == c.queries
    ensures Refresh(c, e).0.invalidations == c.invalidations
    ensures |Refresh(c, e).0.entries| == |c.entries| && c.fetches <= Refresh(c, e).0.fetches
    ensures forall k :: 0 <= k < |c.entries| ==> Refresh(c, e).0.entries[k].held == c.entries[k].held
  {
    hide Separated, Linked;
    RefreshLinks(c, e);
    var c1 := Refresh(c, e).0;
    LinkedIsWf(c);
    LinkedIsWf(c1);
    forall f | 0 <= f < |c1.fetches| && !Live(c1, c1.fetches[f].entry)
      ensures Separated(c1, c1.fetches[f].key, c1.fetches[f].begunAt, c1.time)
    {
      SeparatedSame(c, c1, c1.fetches[f].key, c1.fetches[f].begunAt, c1.time);
    }
    forall f, g | 0 <= f < g < |c1.fetches| && c1.fetches[f].key == c1.fetches[g].key
      && c1.fetches[f].entry != c1.fetches[g].entry
      ensures Separated(c1, c1.fetches[f].key, c1.fetches[f].begunAt, c1.fetches[g].begunAt)
    {
      SeparatedSame(c, c1, c1.fetches[f].key, c1.fetches[f].begunAt, c1.fetches[g].begunAt);
      if g == |c.fetches| {
        assert c1.fetches[f] == c.fetches[f] && c.entries[c.fetches[f].entry].key == c.entries[e].key;
        assert !Live(c, c.fetches[f].entry);
      }
    }
  }

  lemma LinkedIsWf(c: Cache)
    requires Linked(c)
    ensures Wf(c)
    ensures forall f :: 0 <= f < |c.fetches| ==> c.fetches[f].key == c.entries[c.fetches[f].entry].key
  {}

  /** Changing what an entry holds, or how far a fetch is, moves nothing between generations. */
  lemma SameGenerations(c: Cache, c': Cache)
    requires Inv(c) && Linked(c') && c'.queries == c.queries && c'.invalidations == c.invalidations && c'.time == c.time
    requires |c'.entries| == |c.entries| && forall e :: 0 <= e < |c.entries| ==> c'.entries[e].key == c.entries[e].key
    requires |c'.fetches| == |c.fetches|
    requires forall f :: 0 <= f < |c.fetches| ==>
      c'.fetches[f].entry == c.fetches[f].entry && c'.fetches[f].begunAt == c.fetches[f].begunAt
        && c'.fetches[f].key == c.fetches[f].key
    ensures Inv(c')
  {
    forall f | 0 <= f < |c'.fetches| && !Live(c', c'.fetches[f].entry)
      ensures Separated(c', c'.fetches[f].key, c'.fetches[f].begunAt, c'.time)
    {
      SeparatedSame(c, c', c'.fetches[f].key, c'.fetches[f].begunAt, c'.time);
    }
    forall f, g | 0 <= f < g < |c'.fetches| && c'.fetches[f].key == c'.fetches[g].key
      && c'.fetches[f].entry != c'.fetches[g].entry
      ensures Separated(c', c'.fetches[f].key, c'.fetches[f].begunAt, c'.fetches[g].begunAt)
    {
      SeparatedSame(c, c', c'.fetches[f].key, c'.fetches[f].begunAt, c'.fetches[g].begunAt);
    }
  }

  lemma DropKeeps(c: Cache, prefix: string)
    requires Inv(c)
    ensures Inv(Tick(Drop(c, prefix)))
  {
    var c' := Tick(Drop(c, prefix));
    assert c'.invalidations[|c.invalidations|] == Invalidation(prefix, c.time);
    forall key: string, since: nat, until: nat | Separated(c, key, since, until)
      ensures Separated(c', key, since, until) && Separated(c', key, since, until + 1)
    {
      var i :| 0 <= i < |c.invalidations| && Covers(c.invalidations[i], key) && since <= c.invalidations[i].at <= until;
      assert c'.invalidations[i] == c.invalidations[i];
    }
    forall f | 0 <= f < |c'.fetches| && !Live(c', c'.fetches[f].entry)
      ensures Separated(c', c'.fetches[f].key, c'.fetches[f].begunAt, c'.time)
    {
      if Live(c, c.fetches[f].entry) { assert Covers(c'.invalidations[|c.invalidations|], c.fetches[f].key); }
    }
  }

  lemma TickKeeps(c: Cache)
    requires Inv(c)
    ensures Inv(Tick(c))
  {
    var c' := Tick(c);
    forall f | 0 <= f < |c'.fetches| && !Live(c', c'.fetches[f].entry)
      ensures Separated(c', c'.fetches[f].key, c'.fetches[f].begunAt, c'.time)
    {
      assert Separated(c, c.fetches[f].key, c.fetches[f].begunAt, c.time);
    }
    forall f, g | 0 <= f < g < |c'.fetches| && c'.fetches[f].key == c'.fetches[g].key
      && c'.fetches[f].entry != c'.fetches[g].entry
      ensures Separated(c', c'.fetches[f].key, c'.fetches[f].begunAt, c'.fetches[g].begunAt)
    {
      SeparatedSame(c, c', c'.fetches[f].key, c'.fetches[f].begunAt, c'.fetches[g].begunAt);
    }
  }

  lemma AskKeeps(c: Cache, key: string, force: bool, now: int, ttlMs: int)
    requires Inv(c)
    ensures Inv(Ask(c, key, force, now, ttlMs).0)
  {
    EnterKeeps(c, key);
    RefreshKeeps(Enter(c, key), Enter(c, key).queries[key]);
    hide Linked, Generations, Apart;
  }

  lemma ResolveKeeps(c: Cache, f: nat, value: Option<Value>, now: int)
    requires Inv(c) && f < |c.fetches| && c.fetches[f].progress.Begun?
    ensures Inv(Resolve(c, f, value, now)) && Inv(SetFetch(c, f, Answered))
  {
    hide Generations, Apart;
    SameGenerations(c, Resolve(c, f, value, now));
    SameGenerations(c, SetFetch(c, f, Answered));
  }

  lemma FinishKeeps(c: Cache, f: nat)
    requires Inv(c) && f < |c.fetches| && c.fetches[f].progress.Answered?
    ensures Inv(Finish(c, f))
  {
    hide Generations, Apart;
    SameGenerations(c, Finish(c, f));
  }

  lemma StepKeeps(c: Cache, ev: Event)
    requires Inv(c)
    ensures Inv(Step(c, ev))
  {
    assert Wf(c);
    hide Linked, Generations, Apart, Ask, Resolve, Finish, SetFetch, Drop;
    TickKeeps(c);
    match ev
    case Query(key, force, now, ttlMs) =>
      AskKeeps(c, key, force, now, ttlMs);
      TickKeeps(Ask(c, key, force, now, ttlMs).0);
    case Resolves(f, value, now) =>
      if f < |c.fetches| && c.fetches[f].progress.Begun? {
        ResolveKeeps(c, f, value, now);
        TickKeeps(Resolve(c, f, value, now));
      }
    case Rejects(f) =>
      if f < |c.fetches| && c.fetches[f].progress.Begun? {
        ResolveKeeps(c, f, None, 0);
        TickKeeps(SetFetch(c, f, Answered));
      }
    case Finishes(f) =>
      if f < |c.fetches| && c.fetches[f].progress.Answered? { FinishKeeps(c, f); TickKeeps(Finish(c, f)); }
    case Invalidate(prefix) => DropKeeps(c, prefix);
    case Clear => DropKeeps(c, "");
  }

  // ---------------------------------------------------------------------------------------
  // Whole runs
  // ---------------------------------------------------------------------------------------

  ghost function Run(c: Cache, evs: seq<Event>): (r: Cache)
    requires Inv(c)
    ensures Inv(r)
    decreases evs
  {
    if evs == [] then c
    else
      StepKeeps(c, evs[0]);
      Run(Step(c, evs[0]), evs[1..])
  }

  /** The fetch an answer comes from. */
  function SourceOf(a: Answer): nat {
    match a case Now(held) => held.source case Later(f) => f
  }

  /**
   * Over every run: what a query is answered with comes from a fetch for the same key, begun after
   * every invalidation that covers the key.
   */
  lemma AnswersAreCurrent(evs: seq<Event>, key: string, force: bool, now: int, ttlMs: int, i: nat)
    requires var c := Run(NewCache(), evs); i < |c.invalidations| && Covers(c.invalidations[i], key)
    ensures var c := Run(NewCache(), evs); var (c', a) := Ask(c, key, force, now, ttlMs);
      && SourceOf(a) < |c'.fetches| && c'.fetches[SourceOf(a)].key == key
      && c.invalidations[i].at < c'.fetches[SourceOf(a)].begunAt
  {
    hide Run, Separated, Apart;
    var c := Run(NewCache(), evs);
    EnterKeeps(c, key);
    var c1 := Enter(c, key);
    RefreshKeeps(c1, c1.queries[key]);
  }

  /** The same without the invalidation: a value never comes from another key's fetch. */
  lemma AnswersMatchKey(c: Cache, key: string, force: bool, now: int, ttlMs: int)
    requires Inv(c)
    ensures var (c', a) := Ask(c, key, force, now, ttlMs);
      SourceOf(a) < |c'.fetches| && c'.fetches[SourceOf(a)].key == key
  {
    EnterKeeps(c, key);
    var c1 := Enter(c, key);
    RefreshKeeps(c1, c1.queries[key]);
  }

  /** A query that has to wait waits for a fetch that is not over. */
  lemma AwaitsPending(c: Cache, key: string, force: bool, now: int, ttlMs: int)
    requires Inv(c)
    ensures var (c', a) := Ask(c, key, force, now, ttlMs);
      a.Later? ==> a.fetch < |c'.fetches| && !c'.fetches[a.fetch].progress.Over?
  {
    EnterKeeps(c, key);
    var c1 := Enter(c, key);
    RefreshKeeps(c1, c1.queries[key]);
    hide Generations, Apart;
  }

  /** After a query a fetch is in flight unless a fresh value answered it, and at most one was begun. */
  lemma RefreshesExactlyWhenNeeded(c: Cache, key: string, force: bool, now: int, ttlMs: int)
    requires Inv(c)
    ensures var (c', a) := Ask(c, key, force, now, ttlMs);
      var before := if key in c.queries then c.entries[c.queries[key]] else Entry(key, None, 0, None);
      var served := !force && before.held.Some? && now - before.updatedAt < ttlMs;
      && key in c'.queries
      && (served ==> c'.fetches == c.fetches && a == Now(before.held.value))
      && (!served ==> c'.entries[c'.queries[key]].inflight.Some?)
      && (a.Later? <==> force || before.held.None?)
      && |c.fetches| <= |c'.fetches| <= |c.fetches| + 1
      && (|c'.fetches| > |c.fetches| <==> !served && before.inflight.None?)
  {
    hide Generations, Apart;
  }

  /**
   * Two fetches of one key in flight at once: the key was invalidated after the first began and before the
   * second did.
   */
  lemma OneFetchBetweenInvalidations(evs: seq<Event>, f: nat, g: nat)
    requires var c := Run(NewCache(), evs);
      f < g < |c.fetches| && !c.fetches[f].progress.Over? && !c.fetches[g].progress.Over?
        && c.fetches[f].key == c.fetches[g].key
    ensures var c := Run(NewCache(), evs); Separated(c, c.fetches[f].key, c.fetches[f].begunAt, c.fetches[g].begunAt)
  {}

  // ---------------------------------------------------------------------------------------
  // What an answer says
  // ---------------------------------------------------------------------------------------

  /** The event is the value of a fetch of this entry that was still awaited. */
  predicate Resolved(c: Cache, ev: Event, e: nat) {
    ev.Resolves? && ev.fetch < |c.fetches| && c.fetches[ev.fetch].progress.Begun? && c.fetches[ev.fetch].entry == e
  }

  function Brought(ev: Event): Option<Held>
    requires ev.Resolves?
  {
    if ev.value.Some? then Some(Held(ev.value.value, ev.fetch)) else None
  }

  /** An entry changes its value and its time exactly by the value of one of its fetches; fetches keep their entry. */
  lemma StepEntries(c: Cache, ev: Event, e: nat)
    requires Inv(c) && e < |Step(c, ev).entries|
    ensures |c.entries| <= |Step(c, ev).entries| && |c.fetches| <= |Step(c, ev).fetches|
    ensures forall f :: 0 <= f < |c.fetches| ==> Step(c, ev).fetches[f].entry == c.fetches[f].entry
    ensures e >= |c.entries| ==> Step(c, ev).entries[e].held == None && Step(c, ev).entries[e].updatedAt == 0
    ensures e < |c.entries| && Resolved(c, ev, e) ==>
      Step(c, ev).entries[e].held == Brought(ev) && Step(c, ev).entries[e].updatedAt == ev.now
    ensures e < |c.entries| && !Resolved(c, ev, e) ==>
      Step(c, ev).entries[e].held == c.entries[e].held && Step(c, ev).entries[e].updatedAt == c.entries[e].updatedAt
  {
    LinkedIsWf(c);
    hide Linked, Generations, Apart, Ask;
    if ev.Query? { AskEntries(c, ev.key, ev.force, ev.now, ev.ttlMs); }
  }

  /** A query begins at most one fetch, and changes no value and no time. */
  lemma AskEntries(c: Cache, key: string, force: bool, now: int, ttlMs: int)
    requires Wf(c)
    ensures var c' := Ask(c, key, force, now, ttlMs).0;
      && |c.entries| <= |c'.entries| && |c.fetches| <= |c'.fetches|
      && (forall f :: 0 <= f < |c.fetches| ==> c'.fetches[f].entry == c.fetches[f].entry)
      && (forall e :: |c.entries| <= e < |c'.entries| ==> c'.entries[e].held == None && c'.entries[e].updatedAt == 0)
      && (forall e :: 0 <= e < |c.entries| ==>
            c'.entries[e].held == c.entries[e].held && c'.entries[e].updatedAt == c.entries[e].updatedAt)
  {}

  lemma {:induction false} RunLast(c: Cache, evs: seq<Event>, ev: Event)
    requires Inv(c)
    ensures Inv(Run(c, evs)) && Run(c, evs + [ev]) == Step(Run(c, evs), ev)
    decreases evs
  {
    hide Step, Linked, Generations, Apart;
    LinkedIsWf(c);
    if evs == [] {
      StepKeeps(c, ev);
      assert Run(c, [ev]) == Run(Step(c, ev), []);
    } else {
      StepKeeps(c, evs[0]);
      assert (evs + [ev])[1..] == evs[1..] + [ev];
      RunLast(Step(c, evs[0]), evs[1..], ev);
    }
  }

  /** The entry was given a value, or none, at this point of the run. */
  ghost predicate ResolvedAt(evs: seq<Event>, i: nat, e: nat)
    requires i < |evs|
  {
    Resolved(Run(NewCache(), evs[..i]), evs[i], e)
  }

  ghost predicate LastResolvedAt(evs: seq<Event>, i: nat, e: nat) {
    i < |evs| && evs[i].Resolves? && ResolvedAt(evs, i, e) && forall j :: i < j < |evs| ==> !ResolvedAt(evs, j, e)
  }

  ghost predicate NeverResolved(evs: seq<Event>, e: nat) {
    forall j :: 0 <= j < |evs| ==> !ResolvedAt(evs, j, e)
  }

  lemma ResolvedBefore(evs: seq<Event>, ev: Event, e: nat)
    ensures forall j :: 0 <= j < |evs| ==> ResolvedAt(evs + [ev], j, e) == ResolvedAt(evs, j, e)
    ensures ResolvedAt(evs + [ev], |evs|, e) == Resolved(Run(NewCache(), evs), ev, e)
  {
    assert (evs + [ev])[..|evs|] == evs;
    forall j | 0 <= j < |evs| ensures ResolvedAt(evs + [ev], j, e) == ResolvedAt(evs, j, e) {
      assert (evs + [ev])[..j] == evs[..j];
    }
  }

  /** Over every run an entry holds what the last value of its fetches was, or nothing if none came. */
  lemma {:induction false} EntryHoldsLast(evs: seq<Event>, e: nat)
    requires e < |Run(NewCache(), evs).entries|
    ensures var entry := Run(NewCache(), evs).entries[e];
      || (NeverResolved(evs, e) && entry.held == None && entry.updatedAt == 0)
      || exists i: nat :: LastResolvedAt(evs, i, e) && entry.held == Brought(evs[i]) && entry.updatedAt == evs[i].now
    decreases |evs|
  {
    hide Step, Generations, Apart, Resolved;
    if evs != [] {
      var init, ev := evs[..|evs| - 1], evs[|evs| - 1];
      assert evs == init + [ev];
      RunLast(NewCache(), init, ev);
      var c := Run(NewCache(), init);
      ResolvedBefore(init, ev, e);
      StepEntries(c, ev, e);
      if ResolvedAt(evs, |init|, e) {
        ResolvesExisting(c, ev, e);
        assert LastResolvedAt(evs, |init|, e);
      } else if e < |c.entries| {
        EntryHoldsLast(init, e);
        if !NeverResolved(init, e) {
          var i: nat :| LastResolvedAt(init, i, e)
            && c.entries[e].held == Brought(init[i]) && c.entries[e].updatedAt == init[i].now;
          assert LastResolvedAt(evs, i, e) && evs[i] == init[i];
        }
      } else {
        NewEntryNeverResolved(init, e);
      }
    }
  }

  lemma ResolvesExisting(c: Cache, ev: Event, e: nat)
    requires Inv(c) && Resolved(c, ev, e)
    ensures e < |c.entries| && ev.Resolves?
  {}

  lemma {:induction false} EntriesGrow(evs: seq<Event>, n: nat)
    requires n <= |evs|
    ensures |Run(NewCache(), evs[..n]).entries| <= |Run(NewCache(), evs).entries|
    decreases |evs|
  {
    hide Step, Linked, Generations, Apart;
    if n == |evs| {
      assert evs[..n] == evs;
    } else {
      var init, ev := evs[..|evs| - 1], evs[|evs| - 1];
      assert evs == init + [ev] && evs[..n] == init[..n];
      RunLast(NewCache(), init, ev);
      EntriesGrow(init, n);
      StepGrows(Run(NewCache(), init), ev);
    }
  }

  lemma StepGrows(c: Cache, ev: Event)
    requires Inv(c)
    ensures |c.entries| <= |Step(c, ev).entries|
  {
    hide Generations, Apart;
  }

  lemma NewEntryNeverResolved(evs: seq<Event>, e: nat)
    requires e >= |Run(NewCache(), evs).entries|
    ensures NeverResolved(evs, e)
  {
    hide Step, Linked, Generations, Apart, Run;
    forall j | 0 <= j < |evs| ensures !ResolvedAt(evs, j, e) {
      EntriesGrow(evs, j);
      if ResolvedAt(evs, j, e) { ResolvesExisting(Run(NewCache(), evs[..j]), evs[j], e); }
    }
  }

  /**
   * Over every run: a value that answers a query at once is what its source's fetch brought, by an
   * event of the run at which that fetch was awaited; the entry's time is that event's, and no later
   * fetch of the entry brought anything.
   */
  lemma AnswerIsWhatWasFetched(evs: seq<Event>, key: string, force: bool, now: int, ttlMs: int, h: Held)
    requires Ask(Run(NewCache(), evs), key, force, now, ttlMs).1 == Now(h)
    ensures var c := Run(NewCache(), evs);
      && key in c.queries
      && exists i: nat :: LastResolvedAt(evs, i, c.queries[key])
           && evs[i] == Resolves(h.source, Some(h.value), c.entries[c.queries[key]].updatedAt)
  {
    hide Generations, Apart, Run, Step;
    var c := Run(NewCache(), evs);
    var e := c.queries[key];
    EntryHoldsLast(evs, e);
    var i: nat :| LastResolvedAt(evs, i, e)
      && c.entries[e].held == Brought(evs[i]) && c.entries[e].updatedAt == evs[i].now;
  }

  /** The event makes the cache forget this key. */
  predicate Forgets(ev: Event, key: string) {
    ev.Clear? || (ev.Invalidate? && ev.prefix <= key)
  }

  /** A key keeps its entry over a step exactly if the step does not forget it. */
  lemma KeepsExactly(c: Cache, ev: Event, key: string)
    requires Inv(c) && key in c.queries
    ensures key in Step(c, ev).queries <==> !Forgets(ev, key)
    ensures key in Step(c, ev).queries ==> Step(c, ev).queries[key] == c.queries[key]
  {
    hide Generations, Apart;
    assert "" <= key;
  }

  /** No event forgets the key, and none brings a value for this entry. */
  ghost predicate Untouched(c: Cache, evs: seq<Event>, key: string, e: nat)
    requires Inv(c)
    decreases evs
  {
    evs == [] ||
    (&& !Forgets(evs[0], key) && !Resolved(c, evs[0], e)
     && (StepKeeps(c, evs[0]); Untouched(Step(c, evs[0]), evs[1..], key, e)))
  }

  lemma {:induction false} UntouchedStays(c: Cache, evs: seq<Event>, key: string)
    requires Inv(c) && key in c.queries && Untouched(c, evs, key, c.queries[key])
    ensures var c' := Run(c, evs); var e := c.queries[key];
      && key in c'.queries && c'.queries[key] == e
      && c'.entries[e].held == c.entries[e].held && c'.entries[e].updatedAt == c.entries[e].updatedAt
    decreases evs
  {
    hide Step, Generations, Apart;
    if evs != [] {
      StepKeeps(c, evs[0]);
      KeepsExactly(c, evs[0], key);
      StepEntries(c, evs[0], c.queries[key]);
      UntouchedStays(Step(c, evs[0]), evs[1..], key);
    }
  }

  /**
   * Over every run: a value brought for a key serves every later query of it within the time to live,
   * without a new fetch, unless the key was invalidated or another value came meanwhile.
   */
  lemma FreshValueIsReused(before: seq<Event>, ev: Event, after: seq<Event>, key: string, now: int, ttlMs: int)
    requires var c := Run(NewCache(), before);
      key in c.queries && Resolved(c, ev, c.queries[key]) && ev.value.Some? && now - ev.now < ttlMs
    requires var c := Run(NewCache(), before); Inv(Step(c, ev)) && Untouched(Step(c, ev), after, key, c.queries[key])
    ensures var c := Run(Step(Run(NewCache(), before), ev), after);
      var (c', a) := Ask(c, key, false, now, ttlMs);
      a == Now(Held(ev.value.value, ev.fetch)) && c'.fetches == c.fetches
  {
    hide Step, Generations, Apart;
    var c := Run(NewCache(), before);
    KeepsExactly(c, ev, key);
    StepEntries(c, ev, c.queries[key]);
    UntouchedStays(Step(c, ev), after, key);
  }

  // ---------------------------------------------------------------------------------------
  // The cache in place
  // ---------------------------------------------------------------------------------------

  class QueryCache {
    var queries: map<string, nat>
    var entries: seq<Entry>
    var fetches: seq<Fetch>
    var time: nat
    ghost var invalidations: seq<Invalidation>

    ghost function State(): Cache
      reads this
    {
      Cache(queries, entries, fetches, time, invalidations)
    }

    ghost predicate Valid()
      reads this
    {
      Inv(State())
    }

    constructor ()
      ensures Valid() && State() == NewCache()
    {
      queries, entries, fetches, time, invalidations := map[], [], [], 0, [];
    }

    /** The entry's fetch in flight, or a new one. */
    method RefreshEntry(e: nat) returns (f: nat)
      requires e < |entries|
      modifies `entries, `fetches
      ensures State() == Refresh(old(State()), e).0 && f == Refresh(old(State()), e).1
    {
      if entries[e].inflight.Some? { return entries[e].inflight.value; }
      f := |fetches|;
      fetches := fetches + [Fetch(entries[e].key, e, time, Begun)];
      entries := entries[e := entries[e].(inflight := Some(f))];
    }

    method QueryDashboard(key: string, force: bool, now: int, ttlMs: int) returns (a: Answer)
      requires Wf(State())
      modifies `queries, `entries, `fetches
      ensures State() == Ask(old(State()), key, force, now, ttlMs).0 && a == Ask(old(State()), key, force, now, ttlMs).1
    {
      if key !in queries {
        queries := queries[key := |entries|];
        entries := entries + [Entry(key, None, 0, None)];
      }
      var e := queries[key];
      var entry := entries[e];
      if !force && entry.held.Some? {
        if now - entry.updatedAt >= ttlMs { var f := RefreshEntry(e); }
        a := Now(entry.held.value);
      } else {
        var f := RefreshEntry(e);
        a := Later(f);
      }
    }

    method FetchResolved(f: nat, value: Option<Value>, now: int)
      requires Wf(State()) && f < |fetches|
      modifies `entries, `fetches
      ensures State() == Resolve(old(State()), f, value, now)
    {
      var e := fetches[f].entry;
      entries := entries[e := entries[e].(held := if value.Some? then Some(Held(value.value, f)) else None,
        updatedAt := now)];
      fetches := fetches[f := fetches[f].(progress := Answered)];
    }

    method FetchFinished(f: nat)
      requires Wf(State()) && f < |fetches|
      modifies `entries, `fetches
      ensures State() == Finish(old(State()), f)
    {
      var e := fetches[f].entry;
      if entries[e].inflight == Some(f) { entries := entries[e := entries[e].(inflight := None)]; }
      fetches := fetches[f := fetches[f].(progress := Over)];
    }

    method InvalidateDashboardQueries(prefix: string)
      modifies `queries, `invalidations
      ensures State() == Drop(old(State()), prefix)
    {
      ghost var before := queries;
      var keys := queries.Keys;
      while keys != {}
        invariant keys <= before.Keys && queries.Keys <= before.Keys
        invariant forall k <- queries :: queries[k] == before[k]
        invariant forall k <- before :: k in queries <==> k in keys || !(prefix <= k)
        invariant invalidations == old(invalidations)
        decreases keys
      {
        var k :| k in keys;
        if prefix <= k { queries := queries - {k}; }
        keys := keys - {k};
      }
      invalidations := invalidations + [Invalidation(prefix, time)];
    }

    method ClearDashboardQueries()
      modifies `queries, `invalidations
      ensures State() == Drop(old(State()), "")
    {
      queries := map[];
      invalidations := invalidations + [Invalidation("", time)];
    }

    method Perform(ev: Event) returns (a: Option<Answer>)
      requires Wf(State())
      modifies this
      ensures State() == Step(old(State()), ev)
      ensures ev.Query? ==> a == Some(Ask(old(State()), ev.key, ev.force, ev.now, ev.ttlMs).1)
    {
      hide Ask, Resolve, Finish, Drop;
      a := None;
      match ev {
        case Query(key, force, now, ttlMs) =>
          var answer := QueryDashboard(key, force, now, ttlMs);
          a := Some(answer);
        case Resolves(f, value, now) => if f < |fetches| && fetches[f].progress.Begun? { FetchResolved(f, value, now); }
        case Rejects(f) =>
          if f < |fetches| && fetches[f].progress.Begun? { fetches := fetches[f := fetches[f].(progress := Answered)]; }
        case Finishes(f) => if f < |fetches| && fetches[f].progress.Answered? { FetchFinished(f); }
        case Invalidate(prefix) => InvalidateDashboardQueries(prefix);
        case Clear => ClearDashboardQueries();
      }
      time := time + 1;
    }

    /** Whatever happens next, the object takes the step and keeps the invariant. */
    method Handle(ev: Event) returns (a: Option<Answer>)
      requires Valid()
      modifies this
      ensures Valid() && State() == Step(old(State()), ev)
      ensures ev.Query? ==> a == Some(Ask(old(State()), ev.key, ev.force, ev.now, ev.ttlMs).1)
    {
      hide Linked, Generations, Apart, Step, Ask;
      LinkedIsWf(State());
      StepKeeps(State(), ev);
      a := Perform(ev);
    }
  }
}
