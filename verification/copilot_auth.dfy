/** The client side of the OAuth 2.0 Device Authorization Grant (RFC 8628)
    for GitHub Copilot: ask the server for a device code, then poll until the
    user has authorized, denied or let the code expire. The store is a record;
    the module-level timer and poll start time are fields of it; every
    asynchronous action is split into what happens before its `await` and
    what happens when the response (or the timer) arrives. */
module CopilotAuth {
  import opened Common

  /** `MAX_POLL_DURATION`: 15 minutes. */
  const MAX_POLL_DURATION: int := 15 * 60 * 1000
  /** `DEFAULT_POLL_INTERVAL`: 5 seconds. */
  const DEFAULT_POLL_INTERVAL: int := 5000

  datatype AuthStatus = Idle | Requesting | Pending | Authorized | Denied | Expired | Error

  /** The store's fields, plus `timer` (the delay of the armed poll callback,
      if one is armed) and `pollStartTime`, both module-level in the source. */
  datatype AuthState = AuthState(
    deviceCode: Option<string>,
    userCode: Option<string>,
    verificationUri: Option<string>,
    expiresAt: Option<int>,
    pollInterval: int,
    status: AuthStatus,
    error: Option<string>,
    username: Option<string>,
    isPolling: bool,
    timer: Option<int>,
    pollStartTime: Option<int>
  )

  /** The device authorization response (section 3.2 of RFC 8628). A missing
      `interval` is `None`. */
  datatype DeviceCodeResponse = DeviceCodeResponse(
    deviceCode: string, userCode: string, verificationUri: string, expiresIn: int, interval: Option<int>)

  /** A failed request: the server's `response.data.message`, if any, and the
      error's own `message`, if any. */
  datatype TransportError = TransportError(dataMessage: Option<string>, message: Option<string>)

  datatype StartOutcome = Started(response: DeviceCodeResponse) | StartFailed(err: TransportError)

  /** The poll endpoint's `status`; `Other` is any value the switch does not name. */
  datatype PollStatus = PollPending | PollAuthorized | PollDenied | PollExpired | PollError | PollOther

  datatype PollResponse = PollResponse(status: PollStatus, username: Option<string>, error: Option<string>)

  /** What an awaited poll request yields: an answer, or a thrown network error. */
  datatype PollOutcome = Answered(response: PollResponse) | NetworkFailure

  /** A poll on its way to the server: the device code it carries and the
      interval captured from the state read before the request. */
  datatype PollRequest = PollRequest(deviceCode: string, interval: int)

  datatype StatusOutcome = StatusReply(connected: bool, username: Option<string>) | StatusFailed

  datatype DisconnectOutcome = Revoked | RevokeFailed(err: TransportError)

  /** The store as created, and as `reset` leaves it. */
  function Initial(): AuthState {
    AuthState(None, None, None, None, DEFAULT_POLL_INTERVAL, Idle, None, None, false, None, None)
  }

  /** `stopPolling`: disarm the timer, forget the start time, clear the flag;
      nothing else changes, in particular not the status. */
  function StopPolling(st: AuthState): (r: AuthState)
    ensures r.timer.None? && r.pollStartTime.None? && !r.isPolling
    ensures r.status == st.status && r.error == st.error && r.username == st.username
    ensures r.deviceCode == st.deviceCode && r.userCode == st.userCode
    ensures r.verificationUri == st.verificationUri && r.expiresAt == st.expiresAt
    ensures r.pollInterval == st.pollInterval
  {
    st.(timer := None, pollStartTime := None, isPolling := false)
  }

  /** `reset`: every field back to its initial value, whatever the state was. */
  function Reset(st: AuthState): (r: AuthState)
    ensures r == Initial()
    ensures r.status == Idle && r.pollInterval == DEFAULT_POLL_INTERVAL && r.timer.None?
  {
    var s := StopPolling(st);
    s.(deviceCode := None, userCode := None, verificationUri := None, expiresAt := None,
       pollInterval := DEFAULT_POLL_INTERVAL, status := Idle, error := None, username := None,
       isPolling := false)
  }

  /** The synchronous part of `startDeviceFlow`: stop any polling, then enter
      `requesting` with error and codes cleared. */
  function StartBegin(st: AuthState): (r: AuthState)
    ensures r.status == Requesting
    ensures r.timer.None? && r.pollStartTime.None? && !r.isPolling
    ensures r.error.None? && r.deviceCode.None? && r.userCode.None?
    ensures r.verificationUri == st.verificationUri && r.expiresAt == st.expiresAt
    ensures r.pollInterval == st.pollInterval && r.username == st.username
  {
    StopPolling(st).(status := Requesting, error := None, deviceCode := None, userCode := None)
  }

  /** `(response.interval || 5) * 1000`: a missing or zero interval falls
      back to five seconds. */
  function IntervalMs(interval: Option<int>): (ms: int)
    ensures ms % 1000 == 0
    ensures !Truthy(interval) ==> ms == DEFAULT_POLL_INTERVAL
    ensures Truthy(interval) ==> ms / 1000 == interval.value
  {
    (if Truthy(interval) then interval.value else 5) * 1000
  }

  /** The device code arrived at `now`: record it, compute the expiry, enter
      `pending` and arm the first poll at the new interval. */
  function StartSucceed(st: AuthState, resp: DeviceCodeResponse, now: int): (r: AuthState)
    ensures r.status == Pending && r.isPolling
    ensures r.deviceCode == Some(resp.deviceCode) && r.userCode == Some(resp.userCode)
    ensures r.verificationUri == Some(resp.verificationUri)
    ensures r.expiresAt == Some(now + resp.expiresIn * 1000)
    ensures r.pollInterval == IntervalMs(resp.interval)
    ensures r.timer == Some(r.pollInterval)
    ensures r.pollStartTime == Some(now)
    ensures r.error == st.error && r.username == st.username
  {
    var s := st.(deviceCode := Some(resp.deviceCode), userCode := Some(resp.userCode),
                 verificationUri := Some(resp.verificationUri), expiresAt := Some(now + resp.expiresIn * 1000),
                 pollInterval := IntervalMs(resp.interval), status := Pending, isPolling := true,
                 pollStartTime := Some(now));
    s.(timer := Some(s.pollInterval))
  }

  /** `err.response?.data?.message || err.message || fallback` */
  function ErrorText(err: TransportError, fallback: string): (m: string)
    ensures m == fallback || (err.dataMessage.Some? && m == err.dataMessage.value)
                          || (err.message.Some? && m == err.message.value)
    ensures err.dataMessage.Some? && err.dataMessage.value != "" ==> m == err.dataMessage.value
    ensures !(err.dataMessage.Some? && err.dataMessage.value != "") && err.message.Some? && err.message.value != "" ==>
              m == err.message.value
    ensures !(err.dataMessage.Some? && err.dataMessage.value != "") && !(err.message.Some? && err.message.value != "") ==>
              m == fallback
    ensures fallback != "" ==> m != ""
  {
    OrElse(err.dataMessage, OrElse(err.message, fallback))
  }

  /** The device-code request failed: `error` status and a message. */
  function StartFail(st: AuthState, err: TransportError): (r: AuthState)
    ensures r.status == Error
    ensures r.error.Some? && r.error.value != ""
    ensures r.error.value == ErrorText(err, "Failed to start device flow")
    ensures r.(status := st.status, error := st.error) == st
  {
    st.(status := Error, error := Some(ErrorText(err, "Failed to start device flow")))
  }

  /** The whole of `startDeviceFlow` when its response comes back at once. */
  function StartFlow(st: AuthState, outcome: StartOutcome, now: int): (r: AuthState)
    ensures outcome.Started? ==> r.status == Pending && r.timer == Some(r.pollInterval)
    ensures outcome.StartFailed? ==> r.status == Error && r.timer.None? && !r.isPolling
    ensures r.error.Some? ==> outcome.StartFailed?
  {
    match outcome
    case Started(resp) => StartSucceed(StartBegin(st), resp, now)
    case StartFailed(err) => StartFail(StartBegin(st), err)
  }

  /** The wall-clock ceiling has passed: more than 15 minutes since the flow
      started (a missing or zero start time disables the check). */
  predicate TimedOut(st: AuthState, now: int) {
    Truthy(st.pollStartTime) && now - st.pollStartTime.value > MAX_POLL_DURATION
  }

  /** The server-announced expiry has passed (a missing or zero expiry
      disables the check). */
  predicate CodeExpired(st: AuthState, now: int) {
    Truthy(st.expiresAt) && now > st.expiresAt.value
  }

  /** The timer fires at `now`: the checks before any network call, in the
      source's order. The result is the state afterwards and the poll
      request, if one is sent. A firing consumes the timer. */
  function PollFire(st: AuthState, now: int): (r: (AuthState, Option<PollRequest>))
    ensures r.0.timer.None?
    ensures r.1.Some? <==>
              && st.timer.Some? && !TimedOut(st, now) && !CodeExpired(st, now)
              && st.deviceCode.Some? && st.deviceCode.value != "" && st.status == Pending
    ensures r.1.Some? ==> r.1.value == PollRequest(st.deviceCode.value, st.pollInterval)
    ensures st.timer.Some? && TimedOut(st, now) ==>
              r.0 == st.(timer := None, status := Expired, isPolling := false, error := Some("Authorization timeout"))
    ensures st.timer.Some? && !TimedOut(st, now) && CodeExpired(st, now) ==>
              r.0 == st.(timer := None, status := Expired, isPolling := false, error := Some("Code expired"))
    ensures !(st.timer.Some? && (TimedOut(st, now) || CodeExpired(st, now))) ==> r.0 == st.(timer := None)
  {
    if st.timer.None? then (st, None)
    else
      var s := st.(timer := None);
      if TimedOut(st, now) then
        (s.(status := Expired, isPolling := false, error := Some("Authorization timeout")), None)
      else if CodeExpired(st, now) then
        (s.(status := Expired, isPolling := false, error := Some("Code expired")), None)
      else if st.deviceCode.None? || st.deviceCode.value == "" || st.status != Pending then
        (s, None)
      else
        (s, Some(PollRequest(st.deviceCode.value, st.pollInterval)))
  }

  /** The poll response is applied to whatever the state is NOW, without
      looking at the status again: the four terminal answers end polling; a
      pending or unknown answer, or a network error, re-arms one timer at the
      interval captured before the request and changes nothing else. */
  function PollApply(st: AuthState, req: PollRequest, outcome: PollOutcome): (r: AuthState)
    ensures outcome.Answered? && outcome.response.status == PollAuthorized ==>
              r == st.(status := Authorized, username := NonEmpty(outcome.response.username),
                       isPolling := false, timer := None)
    ensures outcome.Answered? && outcome.response.status == PollDenied ==>
              r == st.(status := Denied, error := Some("Authorization was denied"), isPolling := false, timer := None)
    ensures outcome.Answered? && outcome.response.status == PollExpired ==>
              r == st.(status := Expired, error := Some("Code expired"), isPolling := false, timer := None)
    ensures outcome.Answered? && outcome.response.status == PollError ==>
              r == st.(status := Error, error := Some(OrElse(outcome.response.error, "An error occurred")),
                       isPolling := false, timer := None)
    ensures (outcome.NetworkFailure? || outcome.response.status in {PollPending, PollOther}) ==>
              r == st.(timer := Some(req.interval))
  {
    match outcome
    case NetworkFailure => st.(timer := Some(req.interval))
    case Answered(resp) =>
      match resp.status
      case PollAuthorized =>
        st.(status := Authorized, username := NonEmpty(resp.username), isPolling := false, timer := None)
      case PollDenied =>
        st.(status := Denied, error := Some("Authorization was denied"), isPolling := false, timer := None)
      case PollExpired =>
        st.(status := Expired, error := Some("Code expired"), isPolling := false, timer := None)
      case PollError =>
        st.(status := Error, error := Some(OrElse(resp.error, "An error occurred")), isPolling := false, timer := None)
      case _ => st.(timer := Some(req.interval))
  }

  /** A terminal answer: polling ends. */
  predicate Terminal(p: PollStatus) {
    p in {PollAuthorized, PollDenied, PollExpired, PollError}
  }

  /** A timer firing whose request (if any) is answered before anything else
      happens. */
  function PollCycle(st: AuthState, now: int, outcome: PollOutcome): (r: AuthState)
    ensures r.timer.Some? ==> st.timer.Some? && r.timer == Some(st.pollInterval) && r.status == Pending
    ensures r.timer.Some? <==>
              PollFire(st, now).1.Some? && (outcome.NetworkFailure? || !Terminal(outcome.response.status))
  {
    var (s, req) := PollFire(st, now);
    if req.Some? then PollApply(s, req.value, outcome) else s
  }

  /** `checkStatus` resumed: a connected answer means authorized (with the
      username, or none when empty), any other answer idle; a failed request
      changes nothing. */
  function CheckStatusApply(st: AuthState, outcome: StatusOutcome): (r: AuthState)
    ensures outcome.StatusFailed? ==> r == st
    ensures outcome.StatusReply? && outcome.connected ==>
              r.status == Authorized && r.username == NonEmpty(outcome.username)
    ensures outcome.StatusReply? && !outcome.connected ==> r.status == Idle && r.username.None?
    ensures r.(status := st.status, username := st.username) == st
  {
    match outcome
    case StatusFailed => st
    case StatusReply(connected, name) =>
      if connected then st.(status := Authorized, username := NonEmpty(name))
      else st.(status := Idle, username := None)
  }

  /** `disconnect` resumed: a revoked token means a full reset; a failure
      changes only the error message. */
  function DisconnectApply(st: AuthState, outcome: DisconnectOutcome): (r: AuthState)
    ensures outcome.Revoked? ==> r == Initial()
    ensures outcome.RevokeFailed? ==> r.(error := st.error) == st
    ensures outcome.RevokeFailed? ==> r.error.Some? && r.error.value != ""
    ensures outcome.RevokeFailed? ==>
              r.error == Some(if outcome.err.dataMessage.Some? && outcome.err.dataMessage.value != ""
                              then outcome.err.dataMessage.value else "Failed to disconnect")
  {
    match outcome
    case Revoked => Reset(st)
    case RevokeFailed(err) => st.(error := Some(OrElse(err.dataMessage, "Failed to disconnect")))
  }

  // ---------------------------------------------------------------------
  // Properties

  /** Stopping twice is stopping once, and resetting needs no prior stop. */
  lemma StopIdempotent(st: AuthState)
    ensures StopPolling(StopPolling(st)) == StopPolling(st)
    ensures Reset(StopPolling(st)) == Reset(st)
  {
  }

  /** The wall-clock ceiling is strict and checked first: at exactly 15
      minutes a poll still goes out unless the code itself has expired; one
      millisecond later the flow has expired with the timeout message,
      whether or not the code has also expired. */
  lemma TimeoutBoundary(st: AuthState, start: int)
    requires st.timer.Some? && st.pollStartTime == Some(start) && start != 0
    requires st.deviceCode.Some? && st.deviceCode.value != "" && st.status == Pending
    ensures !CodeExpired(st, start + MAX_POLL_DURATION) ==> PollFire(st, start + MAX_POLL_DURATION).1.Some?
    ensures var r := PollFire(st, start + MAX_POLL_DURATION + 1);
            r.1.None? && r.0.status == Expired && r.0.error == Some("Authorization timeout") && !r.0.isPolling
  {
  }

  /** The ceiling on a real flow: a code that lives exactly 15 minutes, from
      a flow started at `t`. The poll at `t` + 15 minutes goes out; the one a
      millisecond later finds both the ceiling and the code expiry passed and
      reports the timeout. */
  lemma TimeoutAfterStart(st: AuthState, resp: DeviceCodeResponse, t: int)
    requires resp.expiresIn == 900 && resp.deviceCode != "" && t > 0
    ensures var s := StartFlow(st, Started(resp), t);
            && CodeExpired(s, t + MAX_POLL_DURATION + 1)
            && PollFire(s, t + MAX_POLL_DURATION).1 == Some(PollRequest(resp.deviceCode, s.pollInterval))
            && var r := PollFire(s, t + MAX_POLL_DURATION + 1);
               r.1.None? && r.0.status == Expired && r.0.error == Some("Authorization timeout") && !r.0.isPolling
  {
    var s := StartFlow(st, Started(resp), t);
    assert s.expiresAt == Some(t + 900000);
    TimeoutBoundary(s, t);
  }

  /** A flow started at `t` whose code lives 60 seconds has expired, without
      any request, when the timer fires at `t` + 61 seconds. */
  lemma ExpiryWithoutRequest(st: AuthState, resp: DeviceCodeResponse, t: int)
    requires resp.expiresIn == 60 && t > 0
    ensures var s := StartFlow(st, Started(resp), t);
            var r := PollFire(s, t + 61000);
            r.1.None? && r.0.status == Expired && r.0.error == Some("Code expired") && !r.0.isPolling
  {
    var s := StartFlow(st, Started(resp), t);
    assert s.pollStartTime == Some(t);
    assert !TimedOut(s, t + 61000);
    assert CodeExpired(s, t + 61000);
  }

  /** Three pending answers and then `authorized` as alice: the flow ends
      authorized as alice, no longer polling, with no timer armed. */
  lemma AuthorizedAfterThreePending(st: AuthState, t: int)
    requires t > 0
    ensures var resp := DeviceCodeResponse("dc", "WDJB-MJHT", "https://github.com/login/device", 900, Some(5));
            var pending := Answered(PollResponse(PollPending, None, None));
            var alice := Answered(PollResponse(PollAuthorized, Some("alice"), None));
            var s0 := StartFlow(st, Started(resp), t);
            var s1 := PollCycle(s0, t + 5000, pending);
            var s2 := PollCycle(s1, t + 10000, pending);
            var s3 := PollCycle(s2, t + 15000, pending);
            var s4 := PollCycle(s3, t + 20000, alice);
            && s4.status == Authorized && s4.username == Some("alice") && !s4.isPolling && s4.timer.None?
  {
  }

  /** The guard at the top of a poll is the only guard: a response that
      arrives after `reset` is still applied. An `authorized` answer turns
      the fresh idle state into `authorized`, and a pending answer re-arms a
      timer in a state that is not polling. */
  lemma LateResponseOverridesReset(st: AuthState, req: PollRequest, name: string)
    requires name != ""
    ensures PollApply(Reset(st), req, Answered(PollResponse(PollAuthorized, Some(name), None))).status == Authorized
    ensures var r := PollApply(Reset(st), req, Answered(PollResponse(PollPending, None, None)));
            r.timer.Some? && !r.isPolling && r.status == Idle
  {
  }

  /** A sequential session: every action completes before the next begins. */
  datatype Action =
    | Start(started: StartOutcome, now: int)
    | Stop
    | ResetAction
    | Tick(now: int, polled: PollOutcome)
    | Check(checked: StatusOutcome)
    | Disconnect(revoked: DisconnectOutcome)

  function Apply(st: AuthState, a: Action): AuthState {
    match a
    case Start(outcome, now) => StartFlow(st, outcome, now)
    case Stop => StopPolling(st)
    case ResetAction => Reset(st)
    case Tick(now, outcome) => PollCycle(st, now, outcome)
    case Check(outcome) => CheckStatusApply(st, outcome)
    case Disconnect(outcome) => DisconnectApply(st, outcome)
  }

  function Session(st: AuthState, actions: seq<Action>): AuthState
    decreases |actions|
  {
    if actions == [] then st else Session(Apply(st, actions[0]), actions[1..])
  }

  /** One timer at a time, and only while polling: an armed timer always
      runs at the current poll interval, with a start time recorded. */
  predicate TimerInv(st: AuthState) {
    st.timer.Some? ==> st.isPolling && st.timer.value == st.pollInterval && st.pollStartTime.Some?
  }

  lemma ApplyKeepsTimerInv(st: AuthState, a: Action)
    requires TimerInv(st)
    ensures TimerInv(Apply(st, a))
  {
  }

  /** In a sequential session the timer invariant holds throughout; the
      late-response lemma above shows it does not survive interleaving. */
  lemma {:induction false} SessionKeepsTimerInv(st: AuthState, actions: seq<Action>)
    requires TimerInv(st)
    ensures TimerInv(Session(st, actions))
    decreases |actions|
  {
    if actions != [] {
      ApplyKeepsTimerInv(st, actions[0]);
      SessionKeepsTimerInv(Apply(st, actions[0]), actions[1..]);
    }
  }

  /** Starting again cancels the earlier flow's timer before anything else,
      and the new flow's timer is the only one armed afterwards. */
  lemma RestartCancelsTimer(st: AuthState, outcome: StartOutcome, now: int)
    ensures StartBegin(st).timer.None?
    ensures outcome.Started? ==> StartFlow(st, outcome, now).timer == Some(IntervalMs(outcome.response.interval))
  {
  }
}
