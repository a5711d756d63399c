// UserTrackingMiddleware: for an authenticated user whose last activity is
// unknown or due under its throttle, records the client address on the user and stamps
// and saves the activity time; every request is passed on exactly once.
// Times are microsecond counts; `now` is a parameter.

module UserTracking {
  import opened Common

  const MicrosPerSecond := 1_000_000
  const MicrosPerDay := 86_400_000_000

  /** The throttle: at most one update per this many seconds. */
  const ThrottleSeconds := 60

  // ---------------------------------------------------------------------------
  // The throttle test
  // ---------------------------------------------------------------------------

  /** `timedelta.seconds` of a difference of `delta` microseconds: the whole seconds left
      after taking out whole days (days are floored, so this is never negative). */
  function SecondsComponent(delta: int): (s: int)
    ensures 0 <= s < 86_400
    ensures 0 <= delta < MicrosPerDay ==> s == delta / MicrosPerSecond
  {
    (delta % MicrosPerDay) / MicrosPerSecond
  }

  /** Whole days are invisible to `.seconds`. */
  lemma {:induction false} SecondsIgnoreDays(delta: int)
    ensures SecondsComponent(delta + MicrosPerDay) == SecondsComponent(delta)
  {
    var q := delta / MicrosPerDay;
    var r := delta % MicrosPerDay;
    assert delta + MicrosPerDay == (q + 1) * MicrosPerDay + r;
  }

  /** The throttle as written: no activity recorded, or `.seconds` of the elapsed time over 60. */
  predicate NeedsUpdateAsWritten(lastActivity: Option<int>, now: int)
  {
    lastActivity.None? || SecondsComponent(now - lastActivity.value) > ThrottleSeconds
  }

  /** The throttle as intended: no activity recorded, or more than 60 seconds elapsed in total. */
  predicate NeedsUpdate(lastActivity: Option<int>, now: int)
  {
    lastActivity.None? || now - lastActivity.value > ThrottleSeconds * MicrosPerSecond
  }

  /** As written, a user last seen one day and 30 seconds ago is not updated. */
  lemma {:induction false} DayOldActivityNotUpdated(last: int)
    ensures !NeedsUpdateAsWritten(Some(last), last + MicrosPerDay + 30 * MicrosPerSecond)
    ensures NeedsUpdate(Some(last), last + MicrosPerDay + 30 * MicrosPerSecond)
  {
    var delta := MicrosPerDay + 30 * MicrosPerSecond;
    assert SecondsComponent(30 * MicrosPerSecond) == 30;
    SecondsIgnoreDays(30 * MicrosPerSecond);
  }

  /** Within the first day and at whole seconds, both throttles agree. */
  lemma {:induction false} ThrottlesAgreeWithinDay(last: int, now: int)
    requires 0 <= now - last < MicrosPerDay && (now - last) % MicrosPerSecond == 0
    ensures NeedsUpdateAsWritten(Some(last), now) <==> NeedsUpdate(Some(last), now)
  {
    var delta := now - last;
    var k := delta / MicrosPerSecond;
    assert delta == k * MicrosPerSecond;
  }

  /** Once the intended throttle lets an update through, it does so at every later time. */
  lemma {:induction false} NeedsUpdateStaysTrue(lastActivity: Option<int>, now: int, later: int)
    requires now <= later && NeedsUpdate(lastActivity, now)
    ensures NeedsUpdate(lastActivity, later)
  {
  }

  // ---------------------------------------------------------------------------
  // The user, the next handler and the middleware
  // ---------------------------------------------------------------------------

  /** The request's user: its tracking attributes in memory and as last saved. */
  class TrackedUser {
    const isAuthenticated: bool
    var lastLoginIp: Option<string>
    var lastActivity: Option<int>
    var savedLastLoginIp: Option<string>
    var savedLastActivity: Option<int>

    /** A user as loaded: memory and storage agree. */
    constructor (isAuthenticated: bool, lastLoginIp: Option<string>, lastActivity: Option<int>)
      ensures this.isAuthenticated == isAuthenticated
      ensures this.lastLoginIp == lastLoginIp && this.lastActivity == lastActivity
      ensures savedLastLoginIp == lastLoginIp && savedLastActivity == lastActivity
    {
      this.isAuthenticated := isAuthenticated;
      this.lastLoginIp := lastLoginIp;
      this.lastActivity := lastActivity;
      savedLastLoginIp := lastLoginIp;
      savedLastActivity := lastActivity;
    }

    /** User.update_last_activity: stamps `now` and saves only that column. */
    method UpdateLastActivity(now: int)
      modifies this
      ensures lastActivity == Some(now) && savedLastActivity == Some(now)
      ensures lastLoginIp == old(lastLoginIp) && savedLastLoginIp == old(savedLastLoginIp)
    {
      lastActivity := Some(now);
      savedLastActivity := lastActivity;
    }
  }

  /** The response the rest of the stack produces. */
  datatype Response = Response(status: int, body: string)

  /** `get_response`: the rest of the stack, counting how often it is called. */
  class NextHandler {
    const response: Response
    var calls: nat

    constructor (response: Response)
      ensures this.response == response && calls == 0
    {
      this.response := response;
      calls := 0;
    }

    method Handle() returns (r: Response)
      modifies this
      ensures r == response && calls == old(calls) + 1
    {
      calls := calls + 1;
      r := response;
    }
  }

  class UserTrackingMiddleware {
    const getResponse: NextHandler

    constructor (getResponse: NextHandler)
      ensures this.getResponse == getResponse
    {
      this.getResponse := getResponse;
    }

    /**
     * The body of __call__ for a given throttle verdict `due`: for an
     * authenticated user that is due, the client address is set on the user
     * (in memory only, as update_last_activity saves just the activity
     * column) and the activity time is stamped and saved; then the request
     * is passed on.
     */
    method Track(user: TrackedUser, forwardedFor: Option<string>, remoteAddr: Option<string>, now: int, due: bool)
      returns (response: Response)
      modifies user, getResponse
      ensures response == getResponse.response && getResponse.calls == old(getResponse.calls) + 1
      ensures user.isAuthenticated && due ==>
        user.lastLoginIp == ClientIp(forwardedFor, remoteAddr) &&
        user.lastActivity == Some(now) && user.savedLastActivity == Some(now) &&
        user.savedLastLoginIp == old(user.savedLastLoginIp)
      ensures !(user.isAuthenticated && due) ==>
        user.lastLoginIp == old(user.lastLoginIp) && user.lastActivity == old(user.lastActivity) &&
        user.savedLastLoginIp == old(user.savedLastLoginIp) && user.savedLastActivity == old(user.savedLastActivity)
    {
      if user.isAuthenticated {
        var ip := ClientIp(forwardedFor, remoteAddr);
        if due {
          user.lastLoginIp := ip;
          user.UpdateLastActivity(now);
        }
      }
      response := getResponse.Handle();
    }

    /** UserTrackingMiddleware.__call__ as written, with the `.seconds` throttle. */
    method Call(user: TrackedUser, forwardedFor: Option<string>, remoteAddr: Option<string>, now: int)
      returns (response: Response)
      modifies user, getResponse
      ensures response == getResponse.response && getResponse.calls == old(getResponse.calls) + 1
      ensures user.isAuthenticated && NeedsUpdateAsWritten(old(user.lastActivity), now) ==>
        user.lastLoginIp == ClientIp(forwardedFor, remoteAddr) &&
        user.lastActivity == Some(now) && user.savedLastActivity == Some(now) &&
        user.savedLastLoginIp == old(user.savedLastLoginIp)
      ensures !(user.isAuthenticated && NeedsUpdateAsWritten(old(user.lastActivity), now)) ==>
        user.lastLoginIp == old(user.lastLoginIp) && user.lastActivity == old(user.lastActivity) &&
        user.savedLastLoginIp == old(user.savedLastLoginIp) && user.savedLastActivity == old(user.savedLastActivity)
    {
      response := Track(user, forwardedFor, remoteAddr, now, NeedsUpdateAsWritten(user.lastActivity, now));
    }

    /** __call__ with the intended throttle on the total elapsed time. */
    method CallIntended(user: TrackedUser, forwardedFor: Option<string>, remoteAddr: Option<string>, now: int)
      returns (response: Response)
      modifies user, getResponse
      ensures response == getResponse.response && getResponse.calls == old(getResponse.calls) + 1
      ensures user.isAuthenticated && NeedsUpdate(old(user.lastActivity), now) ==>
        user.lastLoginIp == ClientIp(forwardedFor, remoteAddr) &&
        user.lastActivity == Some(now) && user.savedLastActivity == Some(now) &&
        user.savedLastLoginIp == old(user.savedLastLoginIp)
      ensures !(user.isAuthenticated && NeedsUpdate(old(user.lastActivity), now)) ==>
        user.lastLoginIp == old(user.lastLoginIp) && user.lastActivity == old(user.lastActivity) &&
        user.savedLastLoginIp == old(user.savedLastLoginIp) && user.savedLastActivity == old(user.savedLastActivity)
    {
      response := Track(user, forwardedFor, remoteAddr, now, NeedsUpdate(user.lastActivity, now));
    }
  }
}
