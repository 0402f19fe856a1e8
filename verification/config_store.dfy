/** The configuration store: a TTL cache keyed by section (plus the
    whole-document key), a generation token that makes superseded fetches
    harmless, a single shared in-flight request, and the optimistic local
    update. Every asynchronous step is split in two: `FetchStart` is what a
    call does before its first `await`, `FetchResolve` / `FetchReject` what
    the issuing call does when the request settles. */
module ConfigStore {
  import opened Common
  import opened ConfigSchema

  /** A cache key: the whole document (`'__full__'`) or one section. */
  datatype CacheKey = Full | Part(section: Section)

  /** The string the source uses as the map key. */
  function KeyText(k: CacheKey): string {
    match k
    case Full => "__full__"
    case Part(s) => Key(s)
  }

  /** Distinct cache keys have distinct texts, so keying the cache by
      `CacheKey` rather than by its text loses nothing. */
  lemma KeyTextInjective(a: CacheKey, b: CacheKey)
    ensures KeyText(a) == KeyText(b) ==> a == b
  {
    match a
    case Full =>
      if b.Part? {
        TableInjective(b.section, b.section);
      }
    case Part(s) =>
      if b.Part? {
        TableInjective(s, b.section);
      } else {
        TableInjective(s, s);
      }
  }

  /** `CACHE_EXPIRY_MS`: only its positivity matters here. */
  type ExpiryMs = n: int | n > 0 witness 1

  /** What a cache entry or a fetch hands back: the whole document, the value
      of one section, or `undefined`. */
  datatype Value = Doc(config: Config) | Field(json: Json) | Undefined

  datatype CacheEntry = CacheEntry(data: Value, timestamp: int)

  type Cache = map<CacheKey, CacheEntry>

  /** The observable store plus the two module-level variables
      (`configRequestToken` and the id of `inFlightConfigRequest`). */
  datatype Store = Store(
    config: Option<Config>,
    cache: Cache,
    loading: bool,
    error: Option<string>,
    requestToken: nat,
    inFlight: Option<nat>
  )

  function Initial(): Store {
    Store(None, map[], false, None, 0, None)
  }

  /** `section || '__full__'` */
  function KeyOf(section: Option<Section>): CacheKey {
    if section.Some? then Part(section.value) else Full
  }

  /** `extractSectionValue` on a present configuration. */
  function SectionValue(c: Config, s: Section): (v: Value)
    ensures v.Undefined? <==> Extract(c, s).None?
    ensures v.Field? ==> Extract(c, s) == Some(v.json)
    ensures !v.Doc?
  {
    match Extract(c, s)
    case Some(j) => Field(j)
    case None => Undefined
  }

  /** `section ? extractSectionValue(data, section) : data` */
  function Project(data: Config, section: Option<Section>): (v: Value)
    ensures section.None? <==> v == Doc(data)
    ensures section.Some? ==> v == SectionValue(data, section.value)
  {
    if section.Some? then SectionValue(data, section.value) else Doc(data)
  }

  /** `isCacheValid(section)` at time `now`. */
  predicate IsCacheValid(cache: Cache, section: Option<Section>, now: int, ttl: ExpiryMs) {
    var k := KeyOf(section);
    k in cache && now - cache[k].timestamp < ttl
  }

  /** An entry stamped `t` is valid exactly while `now < t + ttl` (also at
      any time before `t`, since only the age is compared): age equal to the
      TTL already counts as expired. */
  lemma ValidityWindow(cache: Cache, section: Option<Section>, t: int, now: int, ttl: ExpiryMs)
    requires KeyOf(section) in cache && cache[KeyOf(section)].timestamp == t
    ensures IsCacheValid(cache, section, now, ttl) <==> now < t + ttl
    ensures !IsCacheValid(cache, section, t + ttl, ttl)
    ensures IsCacheValid(cache, section, t, ttl)
  {
  }

  /** A missing entry is never valid, whatever the time. */
  lemma MissingIsInvalid(cache: Cache, section: Option<Section>, now: int, ttl: ExpiryMs)
    requires KeyOf(section) !in cache
    ensures !IsCacheValid(cache, section, now, ttl)
  {
  }

  /** The shape every cache the store builds has: the whole-document key
      holds a document and every other key is a section key holding a
      (defined) section value. */
  predicate WellFormedCache(c: Cache) {
    && (Full in c ==> c[Full].data.Doc?)
    && forall s :: Part(s) in c ==> c[Part(s)].data.Field?
  }

  /** What the synchronous part of `fetchConfig` decided. */
  datatype Start =
    | Served(value: Value)                   // answered from the cache, no request
    | Joined(request: nat)                   // awaits the shared in-flight request
    | Issued(request: nat, snapshot: Cache)  // started a new request; the cache as read at call start

  /** The synchronous part of `fetchConfig(section, force)`, up to its first
      `await`: the store afterwards and what the call is now waiting for. */
  function FetchStart(st: Store, section: Option<Section>, force: bool, now: int, ttl: ExpiryMs): (r: (Store, Start))
    // Served iff not forced and either the requested entry is valid or, for a
    // section, the whole document is valid.
    ensures r.1.Served? <==>
              && !force
              && (|| IsCacheValid(st.cache, section, now, ttl)
                  || (section.Some? && IsCacheValid(st.cache, None, now, ttl) && st.cache[Full].data.Doc?))
    ensures r.1.Served? && IsCacheValid(st.cache, section, now, ttl) ==>
              r.1.value == st.cache[KeyOf(section)].data
    ensures r.1.Served? && !IsCacheValid(st.cache, section, now, ttl) ==>
              section.Some? && r.1.value == SectionValue(st.cache[Full].data.config, section.value)
    // A call that is not served joins the in-flight request when there is one
    // and starts a request only when there is none.
    ensures r.1.Joined? <==> !r.1.Served? && st.inFlight.Some?
    ensures r.1.Joined? ==> r.1.request == st.inFlight.value
    ensures r.1.Issued? <==> !r.1.Served? && st.inFlight.None?
    // Serving and joining leave the store, tokens and loading flag alone.
    ensures !r.1.Issued? ==> r.0 == st
    // A new request: loading, error cleared, token bumped by one, and the
    // request recorded as the in-flight one; cache and config untouched.
    ensures r.1.Issued? ==>
              && r.1.request == st.requestToken + 1
              && r.1.snapshot == st.cache
              && r.0.requestToken == st.requestToken + 1
              && r.0.inFlight == Some(r.1.request)
              && r.0.loading
              && r.0.error.None?
              && r.0.config == st.config
              && r.0.cache == st.cache
  {
    if !force && IsCacheValid(st.cache, section, now, ttl) then
      (st, Served(st.cache[KeyOf(section)].data))
    else if !force && section.Some? && IsCacheValid(st.cache, None, now, ttl) && st.cache[Full].data.Doc? then
      (st, Served(SectionValue(st.cache[Full].data.config, section.value)))
    else if st.inFlight.Some? then
      (st, Joined(st.inFlight.value))
    else
      var id := st.requestToken + 1;
      (st.(loading := true, error := None, requestToken := id, inFlight := Some(id)), Issued(id, st.cache))
  }

  /** The cache keys of the sections in `keys` whose value in `data` is defined. */
  function DefinedKeys(data: Config, keys: seq<Section>): set<CacheKey> {
    set s | s in keys && Extract(data, s).Some? :: Part(s)
  }

  /** The `SECTION_KEYS.forEach` loop: every section of `keys` with a defined
      value is written, stamped `now`; every other entry is kept. */
  function WriteSections(c: Cache, data: Config, now: int, keys: seq<Section>): (r: Cache)
    ensures r.Keys == c.Keys + DefinedKeys(data, keys)
    ensures forall s :: s in keys && Extract(data, s).Some? ==>
              r[Part(s)] == CacheEntry(Field(Extract(data, s).value), now)
    ensures forall k :: k in c && k !in DefinedKeys(data, keys) ==> r[k] == c[k]
    decreases |keys|
  {
    if keys == [] then c
    else
      var s := keys[0];
      var c' := match Extract(data, s)
                case Some(v) => c[Part(s) := CacheEntry(Field(v), now)]
                case None => c;
      assert DefinedKeys(data, keys) == DefinedKeys(data, [s]) + DefinedKeys(data, keys[1..]) by {
        assert forall t :: t in keys <==> t == s || t in keys[1..];
      }
      WriteSections(c', data, now, keys[1..])
  }

  /** Writing every section over a list that names them all: afterwards a
      section key is present exactly when it was before or its value is
      defined, and holds the fresh value when defined. */
  lemma WriteAllSections(c: Cache, data: Config, now: int, keys: seq<Section>)
    requires forall s: Section :: Rank(s) < |keys| && keys[Rank(s)] == s
    ensures forall k :: k in WriteSections(c, data, now, keys) <==> k in c || (k.Part? && Extract(data, k.section).Some?)
    ensures forall s: Section :: Extract(data, s).Some? ==>
              WriteSections(c, data, now, keys)[Part(s)] == CacheEntry(Field(Extract(data, s).value), now)
    ensures forall k :: k in c && !(k.Part? && Extract(data, k.section).Some?) ==>
              WriteSections(c, data, now, keys)[k] == c[k]
  {
    var r := WriteSections(c, data, now, keys);
    forall k: CacheKey | k.Part? && Extract(data, k.section).Some?
      ensures k in DefinedKeys(data, keys)
    {
      assert keys[Rank(k.section)] == k.section;
    }
  }

  /** The completion's cache over a list of keys that names every section. */
  function RefreshOver(snapshot: Cache, data: Config, now: int, keys: seq<Section>): (c: Cache)
    requires forall s: Section :: Rank(s) < |keys| && keys[Rank(s)] == s
    ensures forall k :: k in c <==> k in snapshot || k == Full || (k.Part? && Extract(data, k.section).Some?)
    ensures c[Full] == CacheEntry(Doc(data), now)
    ensures forall s: Section :: Extract(data, s).Some? ==>
              c[Part(s)] == CacheEntry(Field(Extract(data, s).value), now)
    ensures forall s: Section :: Extract(data, s).None? ==>
              (Part(s) in c <==> Part(s) in snapshot) && (Part(s) in c ==> c[Part(s)] == snapshot[Part(s)])
  {
    WriteAllSections(snapshot[Full := CacheEntry(Doc(data), now)], data, now, keys);
    WriteSections(snapshot[Full := CacheEntry(Doc(data), now)], data, now, keys)
  }

  /** The cache a current completion installs, built from the cache the call
      read when it STARTED: the whole document plus every defined section,
      all stamped `now`; every other entry of the snapshot is carried over. */
  function Refreshed(snapshot: Cache, data: Config, now: int): (c: Cache)
    ensures forall k :: k in c <==> k in snapshot || k == Full || (k.Part? && Extract(data, k.section).Some?)
    ensures c[Full] == CacheEntry(Doc(data), now)
    ensures forall s: Section :: Extract(data, s).Some? ==>
              c[Part(s)] == CacheEntry(Field(Extract(data, s).value), now)
    ensures forall s: Section :: Extract(data, s).None? ==>
              (Part(s) in c <==> Part(s) in snapshot) && (Part(s) in c ==> c[Part(s)] == snapshot[Part(s)])
  {
    SectionKeysByRank();
    RefreshOver(snapshot, data, now, SectionKeys())
  }

  /** The in-flight slot after request `id` settles (the `finally` block):
      cleared only if it still holds this request. */
  function ReleaseSlot(slot: Option<nat>, id: nat): (r: Option<nat>)
    ensures slot == Some(id) ==> r.None?
    ensures slot != Some(id) ==> r == slot
  {
    if slot == Some(id) then None else slot
  }

  /** The issuing call resumes with `data` for request `id`: its return value
      and the store afterwards. A request whose token is no longer current
      writes nothing into config or cache but still returns its value. */
  function FetchResolve(st: Store, id: nat, snapshot: Cache, section: Option<Section>, data: Config, now: int): (r: (Store, Value))
    ensures r.1 == Project(data, section)
    ensures r.0.requestToken == st.requestToken && r.0.error == st.error
    ensures r.0.inFlight == ReleaseSlot(st.inFlight, id)
    ensures id != st.requestToken ==>
              r.0.config == st.config && r.0.cache == st.cache && r.0.loading == st.loading
    ensures id == st.requestToken ==>
              && r.0.config == Some(data)
              && !r.0.loading
              && r.0.cache == Refreshed(snapshot, data, now)
  {
    var slot := ReleaseSlot(st.inFlight, id);
    if id != st.requestToken then
      (st.(inFlight := slot), Project(data, section))
    else
      (st.(config := Some(data), cache := Refreshed(snapshot, data, now), loading := false, inFlight := slot),
       Project(data, section))
  }

  /** The issuing call resumes with a rejection: the error is recorded only
      when the token is current, the cache is never touched, and the caller
      re-throws. */
  function FetchReject(st: Store, id: nat, message: string): (r: Store)
    ensures r.cache == st.cache && r.config == st.config && r.requestToken == st.requestToken
    ensures r.inFlight == ReleaseSlot(st.inFlight, id)
    ensures id == st.requestToken ==> r.error == Some(OrElse(Some(message), "Failed to fetch config")) && !r.loading
    ensures id != st.requestToken ==> r.error == st.error && r.loading == st.loading
    ensures r.error.Some? ==> r.error.value != "" || st.error == r.error
  {
    var slot := ReleaseSlot(st.inFlight, id);
    if id == st.requestToken then
      st.(error := Some(OrElse(Some(message), "Failed to fetch config")), loading := false, inFlight := slot)
    else
      st.(inFlight := slot)
  }

  /** `clearCache(section)`. With a section: drop exactly that entry and the
      whole-document entry. Without: empty everything, invalidate the
      in-flight request by bumping the token, and reset the store. */
  function ClearCache(st: Store, section: Option<Section>): (r: Store)
    ensures section.Some? ==>
              && r.cache.Keys == st.cache.Keys - {Part(section.value), Full}
              && (forall k :: k in r.cache ==> r.cache[k] == st.cache[k])
              && r.config == st.config && r.loading == st.loading && r.error == st.error
              && r.requestToken == st.requestToken && r.inFlight == st.inFlight
    ensures section.None? ==>
              && r.cache == map[]
              && r.requestToken == st.requestToken + 1
              && r.inFlight.None?
              && r.config.None? && !r.loading && r.error.None?
  {
    if section.Some? then
      st.(cache := st.cache - {Part(section.value), Full})
    else
      st.(config := None, cache := map[], loading := false, error := None,
          requestToken := st.requestToken + 1, inFlight := None)
  }

  /** `updateConfigValue(section, value)`: the optimistic local edit, then
      `clearCache(section)`. */
  function UpdateConfigValue(st: Store, s: Section, v: Json): (r: Store)
    ensures r.config.Some? && Extract(r.config.value, s) == Some(v)
    ensures r.config.value.raw.Some? && Key(s) in r.config.value.raw.value && r.config.value.raw.value[Key(s)] == v
    ensures forall t: Section :: t != s ==>
              Extract(r.config.value, t) == (if st.config.Some? then Extract(st.config.value, t) else None)
    ensures Part(s) !in r.cache && Full !in r.cache
    ensures r.cache.Keys == st.cache.Keys - {Part(s), Full}
    ensures forall k :: k in r.cache ==> r.cache[k] == st.cache[k]
    ensures r.loading == st.loading && r.error == st.error
    ensures r.requestToken == st.requestToken && r.inFlight == st.inFlight
    ensures r.config == Some(WithSection(st.config, s, v))
    ensures forall k :: k != Key(s) ==>
              && (k in r.config.value.raw.value <==> k in BaseRaw(st.config))
              && (k in BaseRaw(st.config) ==> r.config.value.raw.value[k] == BaseRaw(st.config)[k])
  {
    ClearCache(st.(config := Some(WithSection(st.config, s, v))), Some(s))
  }

  // ---------------------------------------------------------------------
  // Properties relating the operations

  /** After `updateConfigValue(s, v)`, an unforced `fetchConfig(s)` is never
      answered from the cache, whatever the time: both the section entry and
      the whole-document entry are gone, so it joins or starts a request. */
  lemma UpdateForcesRefetch(st: Store, s: Section, v: Json, now: int, ttl: ExpiryMs)
    ensures !FetchStart(UpdateConfigValue(st, s, v), Some(s), false, now, ttl).1.Served?
  {
    var u := UpdateConfigValue(st, s, v);
    MissingIsInvalid(u.cache, Some(s), now, ttl);
    MissingIsInvalid(u.cache, None, now, ttl);
  }

  /** Likewise after `clearCache(s)` and after `clearCache()`. */
  lemma ClearForcesRefetch(st: Store, section: Option<Section>, asked: Option<Section>, now: int, ttl: ExpiryMs)
    requires section.None? || asked == section || asked.None?
    ensures !FetchStart(ClearCache(st, section), asked, false, now, ttl).1.Served?
  {
  }

  /** A current completion at time `t` makes every fetch within the next TTL
      window an immediate cache answer: the whole document itself, each
      section it defines, and, for a section it leaves undefined, the older
      snapshot entry if that is still valid and `undefined` otherwise. */
  lemma FreshCompletionServes(st: Store, id: nat, snapshot: Cache, caller: Option<Section>, data: Config,
                              t: int, asked: Option<Section>, now: int, ttl: ExpiryMs)
    requires id == st.requestToken
    requires t <= now < t + ttl
    ensures var st' := FetchResolve(st, id, snapshot, caller, data, t).0;
            var r := FetchStart(st', asked, false, now, ttl);
            && r.0 == st'
            && (asked.None? ==> r.1 == Served(Doc(data)))
            && (asked.Some? && Extract(data, asked.value).Some? ==>
                  r.1 == Served(Field(Extract(data, asked.value).value)))
            && (asked.Some? && Extract(data, asked.value).None? ==>
                  r.1 == (if IsCacheValid(snapshot, asked, now, ttl) then Served(snapshot[Part(asked.value)].data)
                          else Served(Undefined)))
  {
    var c := FetchResolve(st, id, snapshot, caller, data, t).0.cache;
    assert c == Refreshed(snapshot, data, t);
    RefreshedServes(snapshot, data, t, asked, now, ttl);
  }

  /** The cache facts behind `FreshCompletionServes`, stated on the
      refreshed cache alone. */
  lemma RefreshedServes(snapshot: Cache, data: Config, t: int, asked: Option<Section>, now: int, ttl: ExpiryMs)
    requires t <= now < t + ttl
    ensures var c := Refreshed(snapshot, data, t);
            && IsCacheValid(c, None, now, ttl) && c[Full].data == Doc(data)
            && (asked.Some? && Extract(data, asked.value).Some? ==>
                  IsCacheValid(c, asked, now, ttl) && c[Part(asked.value)].data == Field(Extract(data, asked.value).value))
            && (asked.Some? && Extract(data, asked.value).None? ==>
                  (IsCacheValid(c, asked, now, ttl) <==> IsCacheValid(snapshot, asked, now, ttl))
                  && (IsCacheValid(c, asked, now, ttl) ==> c[Part(asked.value)] == snapshot[Part(asked.value)]))
  {
    var c := Refreshed(snapshot, data, t);
    ValidityWindow(c, None, t, now, ttl);
    if asked.Some? && Extract(data, asked.value).Some? {
      ValidityWindow(c, asked, t, now, ttl);
    }
  }

  /** The completion's cache does not depend on the live cache at completion
      time: two stores that differ only in their cache end up with the same
      cache. An invalidation made while the request was in flight (say by
      `updateConfigValue`) is therefore overwritten by the snapshot. */
  lemma CompletionIgnoresLiveCache(st: Store, live: Cache, id: nat, snapshot: Cache,
                                   section: Option<Section>, data: Config, now: int)
    requires id == st.requestToken
    ensures FetchResolve(st, id, snapshot, section, data, now).0
         == FetchResolve(st.(cache := live), id, snapshot, section, data, now).0
  {
  }

  // Every operation keeps the cache well formed.

  lemma ResolveKeepsWellFormed(st: Store, id: nat, snapshot: Cache, section: Option<Section>, data: Config, now: int)
    requires WellFormedCache(st.cache) && WellFormedCache(snapshot)
    ensures WellFormedCache(FetchResolve(st, id, snapshot, section, data, now).0.cache)
  {
    RefreshedWellFormed(snapshot, data, now);
  }

  lemma ClearKeepsWellFormed(st: Store, section: Option<Section>)
    requires WellFormedCache(st.cache)
    ensures WellFormedCache(ClearCache(st, section).cache)
  {
    SubCacheWellFormed(st.cache, ClearCache(st, section).cache);
  }

  lemma UpdateKeepsWellFormed(st: Store, s: Section, v: Json)
    requires WellFormedCache(st.cache)
    ensures WellFormedCache(UpdateConfigValue(st, s, v).cache)
  {
    SubCacheWellFormed(st.cache, UpdateConfigValue(st, s, v).cache);
  }

  /** Dropping entries keeps a cache well formed. */
  lemma SubCacheWellFormed(c: Cache, d: Cache)
    requires WellFormedCache(c)
    requires forall k :: k in d ==> k in c && d[k] == c[k]
    ensures WellFormedCache(d)
  {
  }

  /** The refreshed cache is well formed when the snapshot was. */
  lemma RefreshedWellFormed(snapshot: Cache, data: Config, now: int)
    requires WellFormedCache(snapshot)
    ensures WellFormedCache(Refreshed(snapshot, data, now))
  {
    var c := Refreshed(snapshot, data, now);
    forall s | Part(s) in c
      ensures c[Part(s)].data.Field?
    {
      if Extract(data, s).None? {
        assert Part(s) in snapshot;
      }
    }
  }

  /** With a well-formed cache, a served whole-document request yields a
      document and a served section request never does. */
  lemma ServedShape(st: Store, section: Option<Section>, force: bool, now: int, ttl: ExpiryMs)
    requires WellFormedCache(st.cache)
    requires FetchStart(st, section, force, now, ttl).1.Served?
    ensures section.None? <==> FetchStart(st, section, force, now, ttl).1.value.Doc?
  {
  }
}
