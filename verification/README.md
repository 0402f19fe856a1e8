# Management dashboard core: config store, Copilot device flow, count-up text

A Dafny model of four pieces of the CLI-proxy management dashboard:

- **The configuration store** (`useConfigStore`) covers:
  - a time-to-live cache of the `/config` document and of its 36 sections;
  - one shared in-flight request that concurrent callers join;
  - a generation token that makes superseded requests write nothing;
  - the optimistic local edit `updateConfigValue`, followed by cache invalidation.
- **The GitHub Copilot device-flow store** (`useCopilotAuthStore`) is the client side of the OAuth 2.0 Device Authorization Grant (RFC 8628). It requests a device code and then polls on a timer. Polling ends when any of these happens:
  - the server answers `authorized`;
  - the server answers `denied`;
  - the server answers `expired`;
  - the server answers `error`;
  - the local check finds the code past its `expiresAt`, before a request is sent;
  - the 15-minute wall-clock ceiling passes, also checked before a request is sent;
  - the guard finds no device code or a status other than `pending`, and the callback returns without re-arming.

  A `pending` or unrecognised answer, and a network failure, re-arm the timer.
- **The authorization modal** (`CopilotOAuthModal`) covers:
  - the `m:ss` expiry countdown;
  - starting the flow by itself when opened on an idle store;
  - the order of store calls behind Retry and Close;
  - the error panel's texts.
- **The count-up hook** (`useCountUp`) produces `prefix + formatNumber(value) + suffix`. Here `formatNumber` groups the integer digits with the regular expression `\B(?=(\d{3})+(?!\d))`.

## Modelling choices

**Stores and asynchronous actions**
- Each store is an immutable record, and each operation is a pure function from store to store.
- Every asynchronous action is split at its `await`: a start function for the synchronous prefix, and an apply function for the continuation.
  - `FetchStart` is the start of `fetchConfig`; `FetchResolve` and `FetchReject` are its continuations.
  - `StartBegin` is the start of the device flow; `StartSucceed` and `StartFail` are its continuations.
  - `PollFire` is a poll's start; `PollApply` is its continuation.
- `ConfigEvents` runs the config store against an arbitrary interleaving of these events:
  - calls;
  - settlements of any outstanding request;
  - clears;
  - updates.

  Each event yields the replies it delivers to callers.

**Module-level variables of the source**
- `configRequestToken` is the `requestToken` field of the store.
- The id of `inFlightConfigRequest` is the `inFlight` field.
- `pollTimeoutId` is `timer`, the delay of the armed callback.
- `pollStartTime` is a field of the auth state.

**Cache keys and timing**
- Cache keys are a datatype: the whole document, or a section. `KeyTextInjective` shows this loses nothing against the source's string keys, `'__full__'` and the section names.
- The clock is a parameter, `now`.
- `CACHE_EXPIRY_MS` is a parameter, `ttl`, known only to be positive. Its definition (`utils/constants`) is not part of this model.

**JavaScript truthiness**
- Truthiness is written out where the source relies on it:
  - a zero `expiresAt` or `pollStartTime` disables its check;
  - an empty string falls through `||`;
  - `interval || 5` treats a zero interval as missing.

**Grouping**
- The regular-expression replacement is modelled position by position: `\B` is `NotBoundary`, and the lookahead is a digit run whose length is a positive multiple of three.
- It is proved equal to a reference grouping that cuts the digits into threes from the right.
- It is proved to leave a leading minus sign alone.

### Behaviour worth noting

- A poll response is applied to the auth state without re-reading its status. The only guard runs before the request is sent (`useCopilotAuthStore.ts:150-166`), so a response that arrives after `reset` still takes effect. `LateResponseOverridesReset` states this.
- `RawConfigSection` and `SECTION_KEYS` list 36 sections.
- A superseded request still returns its data to its own caller and to every call that joined it. Only the writes into the store are discarded.
- A current completion builds its cache from the cache read when the call STARTED (`new Map(cache)` on a `cache` captured before the `await`). An entry deleted by `clearCache(section)` while the request was in flight, for a section the new document leaves undefined, therefore reappears. `CompletionIgnoresLiveCache` states this independence from the live cache.

## Model

| member | source | states |
|---|---|---|
| ConfigSchema.SectionKeysEnumerate | src/stores/useConfigStore.ts:33-76 | `SECTION_KEYS` names every section of `RawConfigSection`, each exactly once |
| ConfigSchema.SectionKeysByRank | src/stores/useConfigStore.ts:33-76 | the table has 36 entries and each section sits at its own position |
| ConfigSchema.KeyRoundTrip | src/types/config.ts:68-110 | each raw section key reads back to its section, so the kebab-case names are a faithful encoding |
| ConfigSchema.FieldRoundTrip | src/stores/useConfigStore.ts:78-158 | each camel-case field name the switch uses reads back to its section |
| ConfigSchema.TableInjective | src/stores/useConfigStore.ts:78-158 | distinct sections have distinct keys and distinct fields, and no section key is the whole-document key `'__full__'` |
| ConfigSchema.FullKeyIsNoSection | src/stores/useConfigStore.ts:175 | `'__full__'` names no section, so the whole-document entry cannot collide with a section entry |
| ConfigSchema.Extract | src/stores/useConfigStore.ts:78-163 | a section's value is defined exactly when its field is present, and is that field's value |
| ConfigSchema.WithSection | src/stores/useConfigStore.ts:244-369 | the edited document holds `v` both in `raw[key]` and in the section's field; every other raw key is present afterwards iff it was before, with its old value, and every other field likewise, so other sections and fields outside any section are untouched; with no document, or no raw bag, both start empty |
| ConfigStore.KeyTextInjective | src/stores/useConfigStore.ts:175 | distinct cache keys have distinct key texts |
| ConfigStore.SectionValue | src/stores/useConfigStore.ts:78-163 | a section's value is `undefined` exactly when the field is absent, never a whole document |
| ConfigStore.Project | src/stores/useConfigStore.ts:194 | without a section the caller gets the whole document, with one only that section's value |
| ConfigStore.ValidityWindow | src/stores/useConfigStore.ts:398-406 | an entry stamped `t` is valid exactly while `now < t + ttl`, including at times before `t`; age equal to the TTL is expired |
| ConfigStore.MissingIsInvalid | src/stores/useConfigStore.ts:401-403 | a missing entry is never valid |
| ConfigStore.FetchStart | src/stores/useConfigStore.ts:171-203 | a call is served from the cache iff not forced and the entry is valid, or the whole document is valid for a section request; otherwise it joins the in-flight request iff there is one, else issues request `token + 1` with loading on and error cleared; only issuing changes the store |
| ConfigStore.ServedShape | src/stores/useConfigStore.ts:176-189 | on a well-formed cache a whole-document request is served a document and a section request never is |
| ConfigStore.WriteSections | src/stores/useConfigStore.ts:215-220 | the `forEach` adds exactly the sections with a defined value, stamped `now`, and keeps every other entry |
| ConfigStore.WriteAllSections | src/stores/useConfigStore.ts:213-220 | over a key list naming every section, a section key is present afterwards iff it was before or its value is defined |
| ConfigStore.Refreshed | src/stores/useConfigStore.ts:213-220 | the completion's cache holds the fresh document and every defined section stamped `now`; an undefined section keeps exactly its entry from the call-start snapshot |
| ConfigStore.RefreshOver | src/stores/useConfigStore.ts:213-220 | as `Refreshed`, for any key list that names every section |
| ConfigStore.ReleaseSlot | src/stores/useConfigStore.ts:237-241 | the in-flight slot is cleared only when it holds the settling request |
| ConfigStore.FetchResolve | src/stores/useConfigStore.ts:204-228 | every settlement returns the projected data and releases its slot; only a request whose id is the current token installs the config and the refreshed cache and clears loading; a superseded one changes nothing else |
| ConfigStore.FetchReject | src/stores/useConfigStore.ts:229-241 | a rejection never touches cache or config; the message (or `'Failed to fetch config'` when empty) is recorded and loading cleared only for the current token |
| ConfigStore.ClearCache | src/stores/useConfigStore.ts:376-396 | with a section exactly that entry and the whole-document entry go; without, the cache empties, the token moves up by one, the slot is released and config, loading and error reset |
| ConfigStore.UpdateConfigValue | src/stores/useConfigStore.ts:244-374 | the new document is `WithSection` of the old one: the section reads `v` in its field and in `raw`, every other raw key and field keeps its old presence and value, and the section and whole-document cache entries are gone while all else is kept |
| ConfigStore.UpdateForcesRefetch | src/stores/useConfigStore.ts:372-373 | after an update an unforced fetch of that section is never served from the cache, at any time |
| ConfigStore.ClearForcesRefetch | src/stores/useConfigStore.ts:376-396 | after clearing a section (or everything) an unforced fetch of that section or of the whole document is never served from the cache |
| ConfigStore.FreshCompletionServes | src/stores/useConfigStore.ts:176-189 | within the TTL after a current completion every fetch is answered from the cache without a request: the document, each defined section, and for an undefined section the still-valid snapshot entry or `undefined` |
| ConfigStore.RefreshedServes | src/stores/useConfigStore.ts:213-226 | inside the TTL window the refreshed cache has a valid document entry and valid defined sections; an undefined section is valid iff its snapshot entry was |
| ConfigStore.CompletionIgnoresLiveCache | src/stores/useConfigStore.ts:172 | the store after a current completion does not depend on the cache at completion time |
| ConfigStore.ResolveKeepsWellFormed | src/stores/useConfigStore.ts:213-226 | a completion keeps the cache well formed: the document key holds a document, every section key a defined section value |
| ConfigStore.RefreshedWellFormed | src/stores/useConfigStore.ts:213-220 | the refreshed cache is well formed when the snapshot was |
| ConfigStore.ClearKeepsWellFormed | src/stores/useConfigStore.ts:376-396 | clearing keeps the cache well formed |
| ConfigStore.UpdateKeepsWellFormed | src/stores/useConfigStore.ts:244-374 | an update keeps the cache well formed |
| ConfigEvents.Notify | src/stores/useConfigStore.ts:192-195 | settling a request answers every call that joined it exactly once, in joining order, with the shared outcome projected to its section; every other waiting call stays, in order (the `Kept` / `Answers` filters) |
| ConfigEvents.StartInv | src/stores/useConfigStore.ts:30-31 | the initial world satisfies the invariant |
| ConfigEvents.StepInv | src/stores/useConfigStore.ts:171-242 | every event keeps the invariant (the slot names the newest outstanding request, no request is newer than the token, every waiter awaits an outstanding request, the cache and every outstanding request's snapshot are well formed) and never lowers the token |
| ConfigEvents.RunInv | src/stores/useConfigStore.ts:171-242 | the invariant holds after any trace of events |
| ConfigEvents.CallCoalesces | src/stores/useConfigStore.ts:191-203 | a call issues at most one request, none while one is in flight, and then joins exactly the in-flight one |
| ConfigEvents.CallsCoalesce | src/stores/useConfigStore.ts:191-203 | any burst of calls with no completion between them issues at most one request, none if one was already in flight; the earlier waiters stay in front, and every call of the burst not answered from the cache waits on the one request in flight at the end |
| ConfigEvents.SettleReachesEveryWaiter | src/stores/useConfigStore.ts:192-236 | settling answers the issuing call first (its projected data or the rejection) and then each joined call exactly once in joining order, and leaves exactly the other waiters |
| ConfigEvents.ServedCallShape | src/stores/useConfigStore.ts:176-189 | in every reachable world a call answered from the cache gets one successful reply: a document for the whole configuration, never for a section |
| ConfigEvents.StaleSettleWritesNothing | src/stores/useConfigStore.ts:207-210 | a settlement of a request other than the newest writes nothing into config, cache, loading or error |
| ConfigEvents.ClearDiscardsOutstanding | src/stores/useConfigStore.ts:391-393 | a request outstanding at `clearCache()` never writes config or cache, however many events come before its settlement |
| ConfigEvents.SlotReleasedOnlyByOwner | src/stores/useConfigStore.ts:237-241 | a settlement releases the in-flight slot iff it is the request the slot holds |
| CopilotAuth.StopPolling | src/stores/useCopilotAuthStore.ts:90-97 | stopping disarms the timer, forgets the start time and clears the flag, leaving status, codes and error alone |
| CopilotAuth.Reset | src/stores/useCopilotAuthStore.ts:99-112 | reset reaches the initial state from any state |
| CopilotAuth.StartBegin | src/stores/useCopilotAuthStore.ts:53-62 | starting stops any polling and enters `requesting` with error and codes cleared, keeping the other fields |
| CopilotAuth.IntervalMs | src/stores/useCopilotAuthStore.ts:75 | the poll interval is the server's seconds in milliseconds, five seconds when missing or zero |
| CopilotAuth.StartSucceed | src/stores/useCopilotAuthStore.ts:65-81 | a device code moves to `pending` with the codes, expiry `now + expires_in` seconds, the interval, and one timer armed at that interval |
| CopilotAuth.ErrorText | src/stores/useCopilotAuthStore.ts:85 | the message is the server's message when non-empty, else the error's own message when non-empty, else the fallback; never empty when the fallback is not |
| CopilotAuth.StartFail | src/stores/useCopilotAuthStore.ts:82-87 | a failed request sets `error` status with a non-empty message and changes nothing else |
| CopilotAuth.StartFlow | src/stores/useCopilotAuthStore.ts:53-88 | a started flow is pending with a timer at its interval; a failed one is in error with no timer; an error message appears only on failure |
| CopilotAuth.PollFire | src/stores/useCopilotAuthStore.ts:149-169 | a firing consumes the timer; the ceiling is checked before the code expiry, and a request is sent iff neither has passed and a device code is pending; the request carries the captured code and interval |
| CopilotAuth.PollApply | src/stores/useCopilotAuthStore.ts:171-218 | the four terminal answers set their status and message and end polling; pending, unknown answers and network errors re-arm one timer at the captured interval and change nothing else |
| CopilotAuth.PollCycle | src/stores/useCopilotAuthStore.ts:149-218 | after a firing and its answer a timer is armed iff a request went out and the answer was not terminal, and then it runs at the interval and the status is pending |
| CopilotAuth.CheckStatusApply | src/stores/useCopilotAuthStore.ts:114-128 | a connected answer means authorized with the username (none when empty), another answer idle, a failure changes nothing |
| CopilotAuth.DisconnectApply | src/stores/useCopilotAuthStore.ts:130-139 | a revoked token resets the store; a failure sets only the error: the server's message when non-empty, else `Failed to disconnect` |
| CopilotAuth.StopIdempotent | src/stores/useCopilotAuthStore.ts:90-112 | stopping twice is stopping once, and reset needs no prior stop |
| CopilotAuth.TimeoutBoundary | src/stores/useCopilotAuthStore.ts:150-162 | at exactly 15 minutes a poll still goes out unless the code has expired; one millisecond later the flow has expired with the timeout message, whether or not the code has also expired |
| CopilotAuth.TimeoutAfterStart | src/stores/useCopilotAuthStore.ts:64-81 | on a started flow whose code lives 15 minutes, the poll at 15 minutes goes out and the one a millisecond later reports the timeout although the code has expired too |
| CopilotAuth.ExpiryWithoutRequest | src/stores/useCopilotAuthStore.ts:158-162 | a code living 60 seconds has expired, with no request sent, when the timer fires 61 seconds in |
| CopilotAuth.AuthorizedAfterThreePending | src/stores/useCopilotAuthStore.ts:171-212 | three pending answers and then `authorized` end the flow authorized as that user, not polling, with no timer |
| CopilotAuth.LateResponseOverridesReset | src/stores/useCopilotAuthStore.ts:168-211 | a response arriving after reset is still applied: authorized overrides idle, and pending re-arms a timer in a state that is not polling |
| CopilotAuth.ApplyKeepsTimerInv | src/stores/useCopilotAuthStore.ts:35-36 | every completed action keeps at most one timer, armed only while polling, at the poll interval and with a start time |
| CopilotAuth.SessionKeepsTimerInv | src/stores/useCopilotAuthStore.ts:35-36 | the timer invariant holds through any sequential session |
| CopilotAuth.RestartCancelsTimer | src/stores/useCopilotAuthStore.ts:53-55 | starting again cancels the old timer first, and afterwards only the new flow's timer is armed |
| OAuthModal.Remaining | src/components/providers/CopilotSection/CopilotOAuthModal.tsx:59 | the remaining time is zero exactly when expiry has passed, else the exact difference |
| OAuthModal.Split | src/components/providers/CopilotSection/CopilotOAuthModal.tsx:64-65 | minutes and seconds are the clock reading the remaining time falls within, seconds below 60 |
| OAuthModal.SplitUnique | src/components/providers/CopilotSection/CopilotOAuthModal.tsx:64-65 | that reading is the only one the time falls within |
| OAuthModal.ClockRoundTrip | src/components/providers/CopilotSection/CopilotOAuthModal.tsx:66 | the `m:ss` text reads back to its minutes and seconds |
| OAuthModal.Countdown | src/components/providers/CopilotSection/CopilotOAuthModal.tsx:52-72 | no countdown without a truthy expiry in pending; `Expired` iff the expiry has passed; otherwise the `m:ss` text of the remaining time |
| OAuthModal.CountdownReading | src/components/providers/CopilotSection/CopilotOAuthModal.tsx:58-66 | the text shown parses back to a reading within one second below the true remaining time |
| OAuthModal.Retry | src/components/providers/CopilotSection/CopilotOAuthModal.tsx:93-96 | retry starts from the initial state, whatever the old flow left, and enters `requesting` with no timer |
| OAuthModal.Close | src/components/providers/CopilotSection/CopilotOAuthModal.tsx:74-78 | closing leaves the initial state, no timer, and asks to be closed |
| OAuthModal.RetryLabel | src/components/providers/CopilotSection/CopilotOAuthModal.tsx:163 | the label is `Request New Code` exactly for `expired`, else `Try Again` |
| OAuthModal.ErrorMessage | src/components/providers/CopilotSection/CopilotOAuthModal.tsx:160 | the panel shows the store's error when non-empty, else `Authorization failed. Please try again.` |
| OAuthModal.RetryStartsOnce | src/components/providers/CopilotSection/CopilotOAuthModal.tsx:37-41 | after retry from the error panel the modal does not start a second flow by itself |
| OAuthModal.ReopenAfterClose | src/components/providers/CopilotSection/CopilotOAuthModal.tsx:37-41 | after close the store is idle, so opening again starts a new flow, and only when open |
| Decimal.Digits | src/components/providers/CopilotSection/CopilotOAuthModal.tsx:66 | a number's text is digits with no leading zero, one digit exactly below ten |
| Decimal.DigitsRoundTrip | src/components/providers/CopilotSection/CopilotOAuthModal.tsx:66 | reading a number's text back gives the number |
| Decimal.DigitsInjective | src/components/providers/CopilotSection/CopilotOAuthModal.tsx:66 | distinct numbers print differently |
| Decimal.Pad2 | src/components/providers/CopilotSection/CopilotOAuthModal.tsx:66 | `padStart(2, '0')` of a number below 100 is two digits reading back as the number |
| CountUp.DigitRunDigits | src/hooks/useCountUp.ts:72 | the digit run from a position consists of digits and stops at a non-digit or the end |
| CountUp.LookaheadIsRun | src/hooks/useCountUp.ts:72 | `(\d{3})+(?!\d)` succeeds with `k` groups exactly when the digit run is `3k` long and non-empty |
| CountUp.MatchInDigits | src/hooks/useCountUp.ts:72 | on a digit string the expression matches exactly at inner positions a multiple of three from the end |
| CountUp.ChunksShape | src/hooks/useCountUp.ts:72 | the reference groups spell the digits; the first has one to three digits and every later one exactly three |
| CountUp.GroupStrips | src/hooks/useCountUp.ts:72 | removing a digit-free separator from the grouped text gives back the digits |
| CountUp.BuildIsGroup | src/hooks/useCountUp.ts:72 | up to each position a multiple of three from the end, the replacement has produced the reference grouping |
| CountUp.InsertIsGroup | src/hooks/useCountUp.ts:72 | on a non-empty digit string the replacement equals the reference grouping |
| CountUp.SignedGroups | src/hooks/useCountUp.ts:72 | a leading minus sign gets no separator after it, and the digits group as usual |
| CountUp.SplitDot | src/hooks/useCountUp.ts:70 | the integer part is the text before the first dot; the decimal part, present iff there is a dot, is the text up to the next dot |
| CountUp.SplitDigitsDot | src/hooks/useCountUp.ts:70 | digits, a dot and digits split back into the two digit strings |
| CountUp.FormatFixed | src/hooks/useCountUp.ts:64-75 | the grouped integer part, followed by a dot and the decimal part only when that is non-empty |
| CountUp.FormatUnsigned | src/hooks/useCountUp.ts:64-75 | for `toFixed` text of a non-negative number the result is the reference grouping of the integer digits, then the decimals unchanged |
| CountUp.CountUpText | src/hooks/useCountUp.ts:59-61 | the result is the prefix, the formatted number and the suffix, in that order, and nothing else |
| CountUp.CountUpDigits | src/hooks/useCountUp.ts:59-75 | with a prefix, separator and suffix holding no digit, the digits of the returned text are exactly the number's digits |
| CountUp.DefaultExample | src/hooks/useCountUp.ts:16-22 | with the defaults (no prefix or suffix, comma, no decimals) 1234567 reads `1,234,567` |

## Left out

- Network I/O is left out: the HTTP clients for `/config`, device code, poll, status and disconnect. Their results are inputs to the continuation functions.
- React, zustand subscriptions and re-renders, gsap tweening and the reduced-motion branch of `useCountUp` are left out. The animated value is an input to the text functions, already rendered by `toFixed`.
- `Number.prototype.toFixed` and floating point in general are left out. `FormatFixed` takes the fixed text; `FormatUnsigned` states the result for the shape `toFixed` produces.
- Real timers and `setInterval`/`setTimeout` scheduling are left out. A timer is a field holding its delay, and a firing is the `PollFire` event.
- Handle bookkeeping after an interleaved late response is not modelled: the earlier timer a late pending answer orphans, and a `pollTimeoutId` overwritten while another callback is armed. `LateResponseOverridesReset` shows the state in which this happens.
- `Date.now()` is read twice in `startDeviceFlow` and in `poll`. The model reads one `now` per step.
- `$` patterns in the replacement string (`$&`, `$1`, …) are left out. The separator is inserted literally, which is what the default `,` and any separator without `$` do.
- JSON numbers are integers in `Json`. No property here depends on fractional values.
- `updateConfigValue` with an `undefined` value is left out, and so are sections outside `RawConfigSection`. The `default:` branches that read `config.raw[section]` are unreachable for the typed section names, all 36 of which have a field.
- The modal's success notification and `onSuccess` callback are left out. So are `handleCopyCode` (clipboard) and `handleOpenBrowser` (window), which only call foreign APIs.
- `CACHE_EXPIRY_MS` is a positive parameter, because its definition is not part of this model.
- ConfigSchema.KeyRoundTrip: the reverse direction (every string `SectionOfKey` accepts is some section's key) is not stated. Only `Key` followed by `SectionOfKey` is.
