/** The `POST` handler of `app/api/wait-for-connection/route.ts`: read a connected account's
    status once, and unless it is already active, poll it every two seconds until it becomes
    active, expires or is deactivated, or the time runs out.

    The platform is a status oracle: `read(0)` is the read before the loop and `read(k)` the
    `k`-th read inside it. The clock is `clock(k)`, the milliseconds since the loop started at the
    `k`-th test of the loop condition; between two tests lies a read and a 2000 ms sleep. */
module WaitForConnection {
  import opened Wrappers
  import opened Strings
  import Sdk

  /** One `connectedAccounts.get`: the account's status, or the message of the thrown error. */
  datatype Read = Status(status: string) | Failed(message: string)

  /** The JSON body of a request. */
  datatype WaitRequest = WaitRequest(connectionId: Option<string>, userId: Option<string>, timeout: Option<int>)

  /** A JSON reply and its HTTP status. */
  datatype WaitReply = WaitReply(
    httpStatus: nat,
    success: Option<bool>,
    status: Option<string>,
    error: Option<string>,
    message: Option<string>,
    details: Option<string>,
    timeout: Option<int>)

  const DefaultTimeout := 300000
  const PollInterval := 2000

  /** The clock starts at or after zero and every round of the loop takes at least the sleep. */
  ghost predicate Ticking(clock: nat -> int) {
    clock(0) >= 0 && forall k: nat :: clock(k + 1) >= clock(k) + PollInterval
  }

  /** How a poll from the `k`-th test of the loop condition on ends, with the number of reads
      made inside the loop by then. */
  datatype Outcome =
    | Active(count: nat)
    | Ended(state: string, count: nat)
    | TimedOut(count: nat)
    | Thrown(message: string, count: nat)

  predicate Terminal(status: string) { status == "EXPIRED" || status == "INACTIVE" }

  /** The `while` loop as a function: test the time, read, stop on ACTIVE, EXPIRED or INACTIVE,
      otherwise sleep and test again. */
  function Poll(read: nat -> Read, clock: nat -> int, timeout: int, k: nat): (r: Outcome)
    requires Ticking(clock)
    ensures r.count >= k
    decreases timeout - clock(k)
  {
    if clock(k) >= timeout then TimedOut(k)
    else
      match read(k + 1)
      case Failed(m) => Thrown(m, k + 1)
      case Status(st) =>
        if st == "ACTIVE" then Active(k + 1)
        else if Terminal(st) then Ended(st, k + 1)
        else
          assert clock(k + 1) >= clock(k) + PollInterval;
          Poll(read, clock, timeout, k + 1)
  }


  function ActiveReply(): WaitReply {
    WaitReply(200, Some(true), Some("ACTIVE"), None, Some("Connection established successfully"), None, None)
  }

  /** The `catch` around the polling: "not found" errors give 404, any other error reaches the
      outer `catch` and gives 500. */
  function CatchReply(message: string): (r: WaitReply)
    ensures r.httpStatus == 404 <==> Contains(message, "not found")
    ensures r.httpStatus == 404 ==> r.status == Some("NOT_FOUND")
    ensures r.httpStatus != 404 ==> r.httpStatus == 500 && r.status.None?
    ensures r.success == Some(false) && r.details == Some(message)
  {
    if Contains(message, "not found") then
      WaitReply(404, Some(false), Some("NOT_FOUND"), None, Some("Connection not found. It may have expired."), Some(message), None)
    else
      WaitReply(500, Some(false), None, Some("Failed to wait for connection"), None, Some(message), None)
  }

  function ReplyOf(o: Outcome, timeout: int): WaitReply {
    match o
    case Active(_) => ActiveReply()
    case Ended(st, _) => WaitReply(200, Some(false), Some(st), None, Some("Connection " + Lower(st)), None, None)
    case TimedOut(_) => WaitReply(200, Some(false), Some("TIMEOUT"), None, Some("Connection establishment timed out"), None, Some(timeout))
    case Thrown(m, _) => CatchReply(m)
  }

  /** The reply to a request. */
  function WaitSpec(key: Option<string>, req: WaitRequest, read: nat -> Read, clock: nat -> int): (r: WaitReply)
    requires Ticking(clock)
    ensures r.httpStatus == 200 || r.httpStatus == 400 || r.httpStatus == 404 || r.httpStatus == 500
    ensures r.success == Some(true) ==> r == ActiveReply()
  {
    if !Truthy(key) || !Truthy(req.connectionId) then
      WaitReply(400, None, None, Some(if Truthy(key) then "Missing required fields: connectionId" else Sdk.NoServerKey), None, None, None)
    else
      match read(0)
      case Failed(m) => CatchReply(m)
      case Status(st) =>
        if st == "ACTIVE" then ActiveReply() else ReplyOf(Poll(read, clock, req.timeout.GetOr(DefaultTimeout), 0), req.timeout.GetOr(DefaultTimeout))
  }

  /** `POST`. */
  method Wait(key: Option<string>, req: WaitRequest, read: nat -> Read, clock: nat -> int) returns (reply: WaitReply)
    requires Ticking(clock)
    ensures reply == WaitSpec(key, req, read, clock)
  {
    if !Truthy(key) || !Truthy(req.connectionId) {
      return WaitReply(400, None, None, Some(if Truthy(key) then "Missing required fields: connectionId" else Sdk.NoServerKey), None, None, None);
    }
    var timeout := req.timeout.GetOr(DefaultTimeout);
    var first := read(0);
    if first.Failed? {
      return CatchReply(first.message);
    }
    if first.status == "ACTIVE" {
      return ActiveReply();
    }
    var k: nat := 0;
    while clock(k) < timeout
      invariant Poll(read, clock, timeout, k) == Poll(read, clock, timeout, 0)
      decreases timeout - clock(k)
    {
      var current := read(k + 1);
      if current.Failed? {
        return CatchReply(current.message);
      }
      if current.status == "ACTIVE" {
        return ActiveReply();
      }
      if current.status == "EXPIRED" || current.status == "INACTIVE" {
        return ReplyOf(Ended(current.status, k + 1), timeout);
      }
      assert clock(k + 1) >= clock(k) + PollInterval;
      k := k + 1;
    }
    return ReplyOf(TimedOut(k), timeout);
  }

  // ---------------------------------------------------------------------------------------
  // properties of the poll

  /** A read inside the loop that lets the loop go on. */
  predicate Pending(r: Read) { r.Status? && r.status != "ACTIVE" && !Terminal(r.status) }

  /** How a poll ends: every test of the loop condition before the last one passed and every
      read before the last one let the loop go on; a timeout follows a failed test of the loop
      condition, every other ending follows the read that caused it. */
  lemma {:induction false} PollSpec(read: nat -> Read, clock: nat -> int, timeout: int, k: nat)
    requires Ticking(clock)
    ensures var r := Poll(read, clock, timeout, k);
            (forall j :: k <= j < r.count ==> clock(j) < timeout) &&
            (forall j :: k < j < r.count ==> Pending(read(j))) &&
            (r.TimedOut? ==> clock(r.count) >= timeout) &&
            (!r.TimedOut? ==> r.count > k) &&
            (r.Active? ==> read(r.count) == Status("ACTIVE")) &&
            (r.Ended? ==> read(r.count) == Status(r.state) && Terminal(r.state)) &&
            (r.Thrown? ==> read(r.count) == Failed(r.message))
    decreases timeout - clock(k)
  {
    if clock(k) < timeout && Pending(read(k + 1)) {
      assert clock(k + 1) >= clock(k) + PollInterval;
      PollSpec(read, clock, timeout, k + 1);
    }
  }

  /** The `k`-th test of the loop condition comes at least `2000 * k` ms after the start. */
  lemma {:induction false} ClockAtLeast(clock: nat -> int, k: nat)
    requires Ticking(clock)
    ensures clock(k) >= PollInterval * k
  {
    if k > 0 {
      ClockAtLeast(clock, k - 1);
      assert clock(k) >= clock(k - 1) + PollInterval;
    }
  }

  /** At most `ceil(timeout / 2000)` reads happen inside the loop, and none when `timeout <= 0`. */
  lemma ReadBound(read: nat -> Read, clock: nat -> int, timeout: int)
    requires Ticking(clock)
    ensures timeout <= 0 ==> Poll(read, clock, timeout, 0) == TimedOut(0)
    ensures timeout > 0 ==> Poll(read, clock, timeout, 0).count <= (timeout + PollInterval - 1) / PollInterval
  {
    var r := Poll(read, clock, timeout, 0);
    PollSpec(read, clock, timeout, 0);
    if r.count > 0 {
      ClockAtLeast(clock, r.count - 1);
      assert clock(r.count - 1) < timeout;
    }
  }

  /** With the default timeout, at most 150 reads happen inside the loop. */
  lemma DefaultReadBound(read: nat -> Read, clock: nat -> int)
    requires Ticking(clock)
    ensures Poll(read, clock, DefaultTimeout, 0).count <= 150
  {
    ReadBound(read, clock, DefaultTimeout);
  }

  /** A request without server key or connection id gets 400 and no read. */
  lemma WaitValidatesFirst(key: Option<string>, req: WaitRequest, read: nat -> Read, clock: nat -> int)
    requires Ticking(clock)
    ensures var r := WaitSpec(key, req, read, clock);
            (r.httpStatus == 400 <==> !Truthy(key) || !Truthy(req.connectionId)) &&
            (r.httpStatus == 400 ==> (r.error == Some(Sdk.NoServerKey) <==> !Truthy(key)))
  {
    assert |Sdk.NoServerKey| != |"Missing required fields: connectionId"|;
    var r := WaitSpec(key, req, read, clock);
    if Truthy(key) && Truthy(req.connectionId) && read(0).Status? && read(0).status != "ACTIVE" {
      var timeout := req.timeout.GetOr(DefaultTimeout);
      assert r == ReplyOf(Poll(read, clock, timeout, 0), timeout);
    }
  }

  /** An account that is active at the first read is reported at once, whatever the timeout. */
  lemma FirstReadActive(key: Option<string>, req: WaitRequest, read: nat -> Read, clock: nat -> int)
    requires Ticking(clock) && Truthy(key) && Truthy(req.connectionId) && read(0) == Status("ACTIVE")
    ensures WaitSpec(key, req, read, clock) == ActiveReply()
  {
  }

  /** A first read that is not ACTIVE never ends the call by itself, not even EXPIRED: a later
      ACTIVE read still succeeds. */
  lemma FirstReadNotFinal(key: Option<string>, req: WaitRequest, read: nat -> Read, clock: nat -> int)
    requires Ticking(clock) && Truthy(key) && Truthy(req.connectionId)
    requires read(0).Status? && read(0).status != "ACTIVE"
    requires clock(0) < req.timeout.GetOr(DefaultTimeout) && read(1) == Status("ACTIVE")
    ensures WaitSpec(key, req, read, clock) == ActiveReply()
  {
  }

  /** The reply reports ACTIVE only if some read did; EXPIRED or INACTIVE only if the read inside
      the loop that ended it did; TIMEOUT only once the clock reached the timeout. */
  lemma WaitReplies(key: Option<string>, req: WaitRequest, read: nat -> Read, clock: nat -> int)
    requires Ticking(clock)
    ensures var r := WaitSpec(key, req, read, clock);
            var timeout := req.timeout.GetOr(DefaultTimeout);
            (r.status == Some("ACTIVE") ==> exists n :: 0 <= n && read(n) == Status("ACTIVE")) &&
            (r.status.Some? && Terminal(r.status.value) ==>
               exists n :: 1 <= n && read(n) == Status(r.status.value) && forall j :: 1 <= j < n ==> Pending(read(j))) &&
            (r.status == Some("TIMEOUT") ==>
               r.success == Some(false) && exists n :: 0 <= n && clock(n) >= timeout && forall j :: 0 <= j < n ==> clock(j) < timeout)
  {
    var r := WaitSpec(key, req, read, clock);
    var timeout := req.timeout.GetOr(DefaultTimeout);
    if Truthy(key) && Truthy(req.connectionId) {
      if read(0) == Status("ACTIVE") {
        assert read(0) == Status("ACTIVE");
      } else if read(0).Status? {
        var o := Poll(read, clock, timeout, 0);
        PollSpec(read, clock, timeout, 0);
        assert r == ReplyOf(o, timeout);
        if o.Thrown? {
          assert r.status.None? || r.status == Some("NOT_FOUND");
        }
      }
    }
  }
}
