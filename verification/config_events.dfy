/** The configuration store seen from outside: a sequence of calls and
    request completions, interleaved arbitrarily. A world holds the store,
    the issuing call of every outstanding request, and every call that is
    awaiting a request it joined. Each event yields the replies it delivers. */
module ConfigEvents {
  import opened Common
  import opened ConfigSchema
  import opened ConfigStore

  /** The issuing call of request `id`, suspended at its `await`: who called,
      for which section, and the cache it read when it started. */
  datatype Flight = Flight(caller: nat, section: Option<Section>, snapshot: Cache)

  /** A call that joined request `request` and awaits its promise. */
  datatype Waiter = Waiter(caller: nat, section: Option<Section>, request: nat)

  datatype World = World(store: Store, flights: map<nat, Flight>, waiting: seq<Waiter>, issued: nat)

  /** What the outside world does. `Resolve` and `Reject` settle the request
      with the given id (a settled or unknown id is ignored). */
  datatype Event =
    | Call(caller: nat, section: Option<Section>, force: bool, now: int)
    | Resolve(id: nat, data: Config, now: int)
    | Reject(id: nat, message: string)
    | Clear(section: Option<Section>)
    | Update(s: Section, v: Json)

  /** A call returning a value or re-throwing a rejection. */
  datatype Reply = Reply(caller: nat, outcome: Result<Value>)

  /** The world before any event: the initial store, nothing outstanding. */
  function Initial(): World {
    World(ConfigStore.Initial(), map[], [], 0)
  }

  /** What a waiter of a settled request is handed: the shared data projected
      to its own section, or the shared rejection. */
  function Answer(w: Waiter, out: Result<Config>): Reply {
    match out
    case Success(data) => Reply(w.caller, Success(Project(data, w.section)))
    case Failure(m) => Reply(w.caller, Failure(m))
  }

  /** The waiters not awaiting `id`, in their original order. */
  function Kept(ws: seq<Waiter>, id: nat): seq<Waiter>
    decreases |ws|
  {
    if ws == [] then []
    else Kept(ws[..|ws| - 1], id) + (if ws[|ws| - 1].request != id then [ws[|ws| - 1]] else [])
  }

  /** One answer for each waiter awaiting `id`, in the order they joined. */
  function Answers(ws: seq<Waiter>, id: nat, out: Result<Config>): seq<Reply>
    decreases |ws|
  {
    if ws == [] then []
    else Answers(ws[..|ws| - 1], id, out) + (if ws[|ws| - 1].request == id then [Answer(ws[|ws| - 1], out)] else [])
  }

  /** `Kept` and `Answers` peel off the first waiter too. */
  lemma {:induction false} FilterCons(w: Waiter, ws: seq<Waiter>, id: nat, out: Result<Config>)
    ensures Kept([w] + ws, id) == (if w.request != id then [w] else []) + Kept(ws, id)
    ensures Answers([w] + ws, id, out) == (if w.request == id then [Answer(w, out)] else []) + Answers(ws, id, out)
    decreases |ws|
  {
    if ws != [] {
      var init := ws[..|ws| - 1];
      var last := ws[|ws| - 1];
      assert ([w] + ws)[..|[w] + ws| - 1] == [w] + init;
      assert ([w] + ws)[|[w] + ws| - 1] == last;
      FilterCons(w, init, id, out);
      assert ws == init + [last];
    } else {
      assert Kept([w], id) == Kept([], id) + (if w.request != id then [w] else []);
      assert Answers([w], id, out) == Answers([], id, out) + (if w.request == id then [Answer(w, out)] else []);
    }
  }

  /** Settle request `id` for its waiters: every waiter of `id` is answered
      exactly once, in the order they joined, and removed; every other
      waiter stays, in order. */
  function Notify(ws: seq<Waiter>, id: nat, out: Result<Config>): (r: (seq<Waiter>, seq<Reply>))
    ensures r.0 == Kept(ws, id)
    ensures r.1 == Answers(ws, id, out)
    ensures forall x :: x in r.0 ==> x in ws && x.request != id
    ensures forall x :: x in ws && x.request != id ==> x in r.0
    ensures forall x :: x in ws && x.request == id ==> Answer(x, out) in r.1
    ensures forall a :: a in r.1 ==> exists x :: x in ws && x.request == id && a == Answer(x, out)
    ensures |r.0| + |r.1| == |ws|
  {
    if ws == [] then ([], [])
    else
      var rest := Notify(ws[1..], id, out);
      assert forall x :: x in ws <==> x == ws[0] || x in ws[1..];
      FilterCons(ws[0], ws[1..], id, out);
      assert [ws[0]] + ws[1..] == ws;
      if ws[0].request == id then (rest.0, [Answer(ws[0], out)] + rest.1)
      else ([ws[0]] + rest.0, rest.1)
  }

  /** One event: the world afterwards and the replies it delivers. */
  function Step(w: World, e: Event, ttl: ExpiryMs): (World, seq<Reply>) {
    match e
    case Call(caller, section, force, now) =>
      var (st, start) := FetchStart(w.store, section, force, now, ttl);
      (match start
       case Served(v) => (w, [Reply(caller, Success(v))])
       case Joined(id) => (w.(waiting := w.waiting + [Waiter(caller, section, id)]), [])
       case Issued(id, snap) =>
         (w.(store := st, flights := w.flights[id := Flight(caller, section, snap)], issued := w.issued + 1), []))
    case Resolve(id, data, now) =>
      if id !in w.flights then (w, [])
      else
        var f := w.flights[id];
        var (st, v) := FetchResolve(w.store, id, f.snapshot, f.section, data, now);
        var (rest, answers) := Notify(w.waiting, id, Success(data));
        (w.(store := st, flights := w.flights - {id}, waiting := rest), [Reply(f.caller, Success(v))] + answers)
    case Reject(id, message) =>
      if id !in w.flights then (w, [])
      else
        var f := w.flights[id];
        var (rest, answers) := Notify(w.waiting, id, Failure(message));
        (w.(store := FetchReject(w.store, id, message), flights := w.flights - {id}, waiting := rest),
         [Reply(f.caller, Failure(message))] + answers)
    case Clear(section) =>
      (w.(store := ClearCache(w.store, section)), [])
    case Update(s, v) =>
      (w.(store := UpdateConfigValue(w.store, s, v)), [])
  }

  /** A trace of events, with all replies in delivery order. */
  function Run(w: World, es: seq<Event>, ttl: ExpiryMs): (World, seq<Reply>)
    decreases |es|
  {
    if es == [] then (w, [])
    else
      var (w1, out1) := Step(w, es[0], ttl);
      var (w2, out2) := Run(w1, es[1..], ttl);
      (w2, out1 + out2)
  }

  /** What holds of every reachable world: the in-flight slot, when set, names
      the newest request and that request is outstanding; no outstanding
      request is newer than the token; every waiter awaits an outstanding
      request; the cache, and every cache an outstanding request read when it
      started, is well formed. */
  predicate Inv(w: World) {
    && (w.store.inFlight.Some? ==>
          w.store.inFlight.value == w.store.requestToken && w.store.inFlight.value in w.flights)
    && (forall id :: id in w.flights ==> id <= w.store.requestToken)
    && (forall x :: x in w.waiting ==> x.request in w.flights)
    && WellFormedCache(w.store.cache)
    && (forall id :: id in w.flights ==> WellFormedCache(w.flights[id].snapshot))
  }

  lemma StartInv()
    ensures Inv(Initial())
  {
  }

  /** Every event keeps the invariant, and the token never goes down. */
  lemma StepInv(w: World, e: Event, ttl: ExpiryMs)
    requires Inv(w)
    ensures Inv(Step(w, e, ttl).0)
    ensures Step(w, e, ttl).0.store.requestToken >= w.store.requestToken
  {
    match e
    case Call(caller, section, force, now) =>
    case Resolve(id, data, now) =>
      if id in w.flights {
        var r := Notify(w.waiting, id, Success(data));
        var f := w.flights[id];
        ResolveKeepsWellFormed(w.store, id, f.snapshot, f.section, data, now);
      }
    case Reject(id, message) =>
      if id in w.flights {
        var r := Notify(w.waiting, id, Failure(message));
      }
    case Clear(section) =>
      ClearKeepsWellFormed(w.store, section);
    case Update(s, v) =>
      UpdateKeepsWellFormed(w.store, s, v);
  }

  lemma {:induction false} RunInv(w: World, es: seq<Event>, ttl: ExpiryMs)
    requires Inv(w)
    ensures Inv(Run(w, es, ttl).0)
    ensures Run(w, es, ttl).0.store.requestToken >= w.store.requestToken
    decreases |es|
  {
    if es != [] {
      StepInv(w, es[0], ttl);
      RunInv(Step(w, es[0], ttl).0, es[1..], ttl);
    }
  }

  predicate IsCall(e: Event) {
    e.Call?
  }

  /** Coalescing, one call at a time: a call issues at most one request, and
      none while one is in flight; a call that misses the cache while a
      request is in flight joins exactly that request. */
  lemma CallCoalesces(w: World, e: Event, ttl: ExpiryMs)
    requires e.Call?
    ensures var w' := Step(w, e, ttl).0;
            && w'.issued <= w.issued + 1
            && (w.store.inFlight.Some? ==>
                  && w'.issued == w.issued
                  && w'.store == w.store
                  && w'.flights == w.flights
                  && (w'.waiting == w.waiting ||
                      w'.waiting == w.waiting + [Waiter(e.caller, e.section, w.store.inFlight.value)]))
            && (w'.issued == w.issued + 1 ==> w'.store.inFlight.Some?)
            && (w.store.inFlight.Some? ==> w'.store.inFlight == w.store.inFlight)
  {
  }

  /** Coalescing over any burst of calls with no completion in between: at
      most one request is issued, none if one was already in flight, and the
      token moves by at most one. Every call of the burst that is not
      answered from the cache waits, behind the earlier waiters, on the one
      request in flight at the end of the burst. */
  lemma {:induction false} CallsCoalesce(w: World, es: seq<Event>, ttl: ExpiryMs)
    requires forall i :: 0 <= i < |es| ==> IsCall(es[i])
    ensures Run(w, es, ttl).0.issued <= w.issued + 1
    ensures w.store.inFlight.Some? ==> Run(w, es, ttl).0.issued == w.issued
    ensures w.store.inFlight.Some? ==> Run(w, es, ttl).0.store == w.store
    ensures Run(w, es, ttl).0.issued == w.issued + 1 ==> Run(w, es, ttl).0.store.inFlight.Some?
    ensures var w' := Run(w, es, ttl).0;
            && |w.waiting| <= |w'.waiting| && w'.waiting[..|w.waiting|] == w.waiting
            && (|w'.waiting| > |w.waiting| ==> w'.store.inFlight.Some?)
            && (forall i :: |w.waiting| <= i < |w'.waiting| ==> w'.waiting[i].request == w'.store.inFlight.value)
    decreases |es|
  {
    if es != [] {
      assert IsCall(es[0]);
      var w1 := Step(w, es[0], ttl).0;
      CallCoalesces(w, es[0], ttl);
      CallsCoalesce(w1, es[1..], ttl);
      var w' := Run(w, es, ttl).0;
      assert w' == Run(w1, es[1..], ttl).0;
      if w1.store.inFlight.Some? {
        assert w'.store == w1.store;
      }
      assert w1.waiting[..|w.waiting|] == w.waiting;
    }
  }

  /** Settling a request answers its issuer first and then every call that
      joined it, each with the shared result projected to its own section
      (or the shared rejection), and leaves no waiter of that request. */
  lemma SettleReachesEveryWaiter(w: World, e: Event, ttl: ExpiryMs)
    requires e.Resolve? || e.Reject?
    requires e.id in w.flights
    ensures var out := if e.Resolve? then Success(e.data) else Failure(e.message);
            var (w', replies) := Step(w, e, ttl);
            && |replies| >= 1
            && replies[0].caller == w.flights[e.id].caller
            && (e.Resolve? ==> replies[0].outcome == Success(Project(e.data, w.flights[e.id].section)))
            && (e.Reject? ==> replies[0].outcome == Failure(e.message))
            && (forall x :: x in w.waiting && x.request == e.id ==> Answer(x, out) in replies)
            && replies[1..] == Answers(w.waiting, e.id, out)
            && w'.waiting == Kept(w.waiting, e.id)
            && (forall x :: x in w'.waiting ==> x.request != e.id)
            && e.id !in w'.flights
  {
    var out := if e.Resolve? then Success(e.data) else Failure(e.message);
    var n := Notify(w.waiting, e.id, out);
  }

  /** A settlement of a request that is not the newest one writes nothing
      into the configuration or the cache (its callers still get the data). */
  lemma StaleSettleWritesNothing(w: World, e: Event, ttl: ExpiryMs)
    requires e.Resolve? || e.Reject?
    requires e.id != w.store.requestToken
    ensures Step(w, e, ttl).0.store.config == w.store.config
    ensures Step(w, e, ttl).0.store.cache == w.store.cache
    ensures Step(w, e, ttl).0.store.loading == w.store.loading
    ensures Step(w, e, ttl).0.store.error == w.store.error
  {
  }

  /** Stale discard: a request outstanding when `clearCache()` runs can never
      write into the configuration or the cache, however many events come
      between the clear and its settlement. */
  lemma {:induction false} ClearDiscardsOutstanding(w: World, before: seq<Event>, after: seq<Event>,
                                                    id: nat, e: Event, ttl: ExpiryMs)
    requires Inv(w)
    requires id in Run(w, before, ttl).0.flights
    requires (e.Resolve? || e.Reject?) && e.id == id
    ensures var w1 := Run(w, before, ttl).0;
            var w2 := Run(Step(w1, Clear(None), ttl).0, after, ttl).0;
            && Step(w2, e, ttl).0.store.config == w2.store.config
            && Step(w2, e, ttl).0.store.cache == w2.store.cache
  {
    var w1 := Run(w, before, ttl).0;
    RunInv(w, before, ttl);
    var wc := Step(w1, Clear(None), ttl).0;
    StepInv(w1, Clear(None), ttl);
    assert wc.store.requestToken == w1.store.requestToken + 1;
    var w2 := Run(wc, after, ttl).0;
    RunInv(wc, after, ttl);
    StaleSettleWritesNothing(w2, e, ttl);
  }

  /** The in-flight slot is released by the settlement of the request it
      holds and by nothing else that settles. */
  lemma SlotReleasedOnlyByOwner(w: World, e: Event, ttl: ExpiryMs)
    requires Inv(w)
    requires e.Resolve? || e.Reject?
    requires w.store.inFlight.Some?
    ensures Step(w, e, ttl).0.store.inFlight.None? <==> e.id == w.store.inFlight.value
  {
  }

  /** In every reachable world a call answered at once gets a document when
      it asked for the whole configuration and never when it asked for a
      section. */
  lemma ServedCallShape(w: World, e: Event, ttl: ExpiryMs)
    requires Inv(w)
    requires e.Call?
    requires FetchStart(w.store, e.section, e.force, e.now, ttl).1.Served?
    ensures var replies := Step(w, e, ttl).1;
            && |replies| == 1 && replies[0].caller == e.caller && replies[0].outcome.Success?
            && (e.section.None? <==> replies[0].outcome.value.Doc?)
  {
    ServedShape(w.store, e.section, e.force, e.now, ttl);
  }
}
