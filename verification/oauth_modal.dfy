/** The authorization modal's own logic: the expiry countdown it shows while
    the code is pending, when it starts a flow by itself, and the order of
    store actions behind its Retry and Close buttons. */
module OAuthModal {
  import opened Common
  import opened Decimal
  import opened CopilotAuth

  /** Milliseconds until `expiresAt`, never negative. */
  function Remaining(expiresAt: int, now: int): (r: nat)
    ensures r == 0 <==> expiresAt <= now
    ensures r > 0 ==> now + r == expiresAt
  {
    if expiresAt - now > 0 then expiresAt - now else 0
  }

  /** Whole minutes and leftover whole seconds of a duration in milliseconds:
      the clock reading that the duration falls within. */
  function Split(remaining: nat): (r: (nat, nat))
    ensures r.1 < 60
    ensures r.0 * 60000 + r.1 * 1000 <= remaining < r.0 * 60000 + (r.1 + 1) * 1000
  {
    var m := remaining / 60000;
    var rest := remaining % 60000;
    var s := rest / 1000;
    assert remaining == m * 60000 + rest;
    assert rest == s * 1000 + rest % 1000;
    (m, s)
  }

  /** Any clock reading that the duration falls within is the one `Split`
      computes. */
  lemma SplitUnique(remaining: nat, m: nat, s: nat)
    requires s < 60
    requires m * 60000 + s * 1000 <= remaining < m * 60000 + (s + 1) * 1000
    ensures Split(remaining) == (m, s)
  {
    var (m', s') := Split(remaining);
    var a := m * 60 + s;
    var b := m' * 60 + s';
    assert a * 1000 <= remaining < (a + 1) * 1000;
    assert b * 1000 <= remaining < (b + 1) * 1000;
  }

  /** `${minutes}:${seconds.padStart(2, '0')}` */
  function ClockText(m: nat, s: nat): string
    requires s < 60
  {
    Digits(m) + ":" + Pad2(s)
  }

  /** Reads a clock text back: everything before the last three characters
      is the minutes, then a colon, then two digits of seconds. */
  function ParseClock(t: string): Option<(nat, nat)> {
    if |t| >= 4 && t[|t| - 3] == ':' then
      var m := ParseNat(t[..|t| - 3]);
      var s := ParseNat(t[|t| - 2..]);
      if m.Some? && s.Some? then Some((m.value, s.value)) else None
    else None
  }

  /** The clock text determines the reading it was printed from. */
  lemma ClockRoundTrip(m: nat, s: nat)
    requires s < 60
    ensures ParseClock(ClockText(m, s)) == Some((m, s))
  {
    var t := ClockText(m, s);
    DigitsRoundTrip(m);
    assert t[..|t| - 3] == Digits(m);
    assert t[|t| - 2..] == Pad2(s);
  }

  /** `updateTimer`'s text, or `None` when no countdown is shown (no expiry,
      or a status other than pending). */
  function Countdown(expiresAt: Option<int>, status: AuthStatus, now: int): (r: Option<string>)
    ensures r.None? <==> !Truthy(expiresAt) || status != Pending
    ensures r.Some? ==> (r.value == "Expired" <==> expiresAt.value <= now)
    ensures r.Some? && expiresAt.value > now ==>
              var (m, s) := Split(Remaining(expiresAt.value, now));
              r.value == ClockText(m, s) && ParseClock(r.value) == Some((m, s))
  {
    if !Truthy(expiresAt) || status != Pending then None
    else
      var remaining := Remaining(expiresAt.value, now);
      if remaining == 0 then Some("Expired")
      else
        var (m, s) := Split(remaining);
        ClockRoundTrip(m, s);
        assert ClockText(m, s) != "Expired" by {
          assert ClockText(m, s)[|ClockText(m, s)| - 3] == ':';
        }
        Some(ClockText(m, s))
  }

  /** What the countdown reads when the code expires at `t + d` and the clock
      says `t`: the minutes and seconds of `d`, and the text parses back to
      a reading within the last second of the true remaining time. */
  lemma CountdownReading(expiresAt: int, now: int)
    requires expiresAt != 0 && expiresAt > now
    ensures var r := Countdown(Some(expiresAt), Pending, now);
            r.Some? && ParseClock(r.value).Some?
            && var (m, s) := ParseClock(r.value).value;
               s < 60 && m * 60000 + s * 1000 <= expiresAt - now < m * 60000 + (s + 1) * 1000
  {
  }

  /** The flow is started by the modal itself only while it is open and the
      store is idle. */
  predicate ShouldAutoStart(isOpen: bool, status: AuthStatus) {
    isOpen && status == Idle
  }

  /** `handleRetry`: `reset` then `startDeviceFlow` (its synchronous part). */
  function Retry(st: AuthState): (r: AuthState)
    ensures r == StartBegin(Initial())
    ensures r.status == Requesting && r.timer.None? && !r.isPolling
    ensures !ShouldAutoStart(true, r.status)
  {
    StartBegin(Reset(st))
  }

  /** `handleClose`: `stopPolling`, `reset`, then the close callback. The
      boolean says the modal asked to be closed. */
  function Close(st: AuthState): (r: (AuthState, bool))
    ensures r.0 == Initial() && r.1
    ensures r.0.timer.None? && !r.0.isPolling
  {
    (Reset(StopPolling(st)), true)
  }

  /** The error panel, with its Retry button, is shown for these statuses. */
  predicate OffersRetry(status: AuthStatus) {
    status in {Error, Denied, Expired}
  }

  /** The Retry button's label. */
  function RetryLabel(status: AuthStatus): (text: string)
    ensures text == "Request New Code" <==> status == Expired
    ensures text == "Request New Code" || text == "Try Again"
  {
    if status == Expired then "Request New Code" else "Try Again"
  }

  /** The error panel's message: the store's error, or a generic one. */
  function ErrorMessage(error: Option<string>): (m: string)
    ensures m != ""
    ensures error.Some? && error.value != "" ==> m == error.value
    ensures !(error.Some? && error.value != "") ==> m == "Authorization failed. Please try again."
  {
    OrElse(error, "Authorization failed. Please try again.")
  }

  /** Retrying from the error panel never makes the modal start a second flow
      on its own, and the retried flow starts from the same state whatever
      the old flow left behind. */
  lemma RetryStartsOnce(a: AuthState, b: AuthState)
    requires OffersRetry(a.status)
    ensures !ShouldAutoStart(true, Retry(a).status)
    ensures Retry(a) == Retry(b)
  {
  }

  /** Closing leaves the store idle, so opening the modal again starts a new
      flow. */
  lemma ReopenAfterClose(st: AuthState)
    ensures ShouldAutoStart(true, Close(st).0.status)
    ensures !ShouldAutoStart(false, Close(st).0.status)
  {
  }
}
