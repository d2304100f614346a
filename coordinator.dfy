/**
 * The polling coordinator of the vehicle-status integration.  It fetches
 * the vehicle's status from the vendor's API with a bounded retry loop,
 * keeps the last payload, fans each refresh out to its listeners, and
 * switches itself off (with a persistent notification) on any error.
 *
 * The HTTP exchange is abstracted to the outcome of each attempt; the
 * periodic timer is a flag; notifications, listener invocations, sleeps and
 * requests are recorded in logs.
 */
module Coordinator {
  import opened Snapshot

  const MAX_RETRIES: nat := 5
  const SUCCESS_CODE: int := 20000

  const NOTIFICATION_ID: string := "neta_vehicle_status_error"
  const NOTIFICATION_TITLE: string := "车辆状态集成错误"
  const TOKEN_EXPIRED_MESSAGE: string := "Token已过期，需要重新配置"
  const NETWORK_FAILURE_MESSAGE: string := "API 请求失败，请检查网络或配置"

  /** The "data" member of a decoded response: absent, or present (JSON null
      or a payload). */
  datatype DataField = Absent | Present(value: Option<Snapshot>)

  /** The outcome of one POST: a failure before a decoded JSON object was in
      hand (client error, timeout, HTTP error status, undecodable body, any
      other exception), or a decoded object with its optional "code" and its
      "data" member. */
  datatype Attempt = TransportFailure | Response(code: Option<int>, body: DataField)

  /** A persistent notification as posted to the host. */
  datatype Notification = Notification(message: string, title: string, id: string)

  type ListenerId = nat

  /** The observable state of a coordinator. */
  datatype CoordinatorState = CoordinatorState(
    data: Option<Snapshot>,
    running: bool,
    listeners: seq<ListenerId>,
    timerArmed: bool,
    notifications: seq<Notification>,  // every notification posted, oldest first
    calls: seq<ListenerId>,            // every listener invocation, oldest first
    sleeps: seq<real>,                 // every back-off sleep, in seconds
    requests: nat)                     // POSTs made so far

  /** `json_data.get("data", {})`. */
  function Payload(body: DataField): Option<Snapshot>
  {
    match body
    case Absent => Some(map[])
    case Present(v) => v
  }

  predicate Accepted(a: Attempt)
  {
    a.Response? && a.code == Some(SUCCESS_CODE)
  }

  /** One back-off sleep: the update interval spread over the attempts. */
  function Pause(interval: int): real
  {
    interval as real / MAX_RETRIES as real
  }

  function Pauses(n: nat, interval: int): (p: seq<real>)
    ensures |p| == n && forall i :: 0 <= i < n ==> p[i] == Pause(interval)
  {
    seq(n, _ => Pause(interval))
  }

  // ---------------------------------------------------------------------
  // Specification of each operation

  function Initial(): CoordinatorState
  {
    CoordinatorState(None, true, [], false, [], [], [], 0)
  }

  /** The error notification for `message`. */
  function ErrorNotice(message: string): Notification
  {
    Notification(message + "。", NOTIFICATION_TITLE, NOTIFICATION_ID)
  }

  /** handle_error: switch off and post the fixed-id notification. */
  function HandleErrorSpec(s: CoordinatorState, message: string): (s': CoordinatorState)
    ensures !s'.running
    ensures |s'.notifications| == |s.notifications| + 1 && s'.notifications[..|s.notifications|] == s.notifications
    ensures s'.notifications[|s.notifications|] == ErrorNotice(message)
    ensures s'.notifications[|s.notifications|].id == NOTIFICATION_ID
    ensures s' == s.(running := false, notifications := s'.notifications)
  {
    s.(running := false, notifications := s.notifications + [ErrorNotice(message)])
  }

  /** fetch_vehicle_status from attempt number `retries` on: the state after
      the remaining attempts, and the returned payload. */
  function Fetch(s: CoordinatorState, network: nat -> Attempt, retries: nat, interval: int): (CoordinatorState, Option<Snapshot>)
    requires retries <= MAX_RETRIES
    decreases MAX_RETRIES - retries
  {
    if retries == MAX_RETRIES then (HandleErrorSpec(s, NETWORK_FAILURE_MESSAGE), None)
    else
      var s1 := s.(requests := s.requests + 1);
      match network(retries)
      case Response(code, body) =>
        if code == Some(SUCCESS_CODE) then (s1, Payload(body))
        else (HandleErrorSpec(s1, TOKEN_EXPIRED_MESSAGE), None)
      case TransportFailure =>
        Fetch(s1.(sleeps := s1.sleeps + [Pause(interval)]), network, retries + 1, interval)
  }

  /** The listeners a notification round reaches: all of them, in order, up
      to and including the first one that raises. */
  function Called(ls: seq<ListenerId>, raises: ListenerId -> bool): (c: seq<ListenerId>)
    ensures |c| <= |ls| && c == ls[..|c|]
  {
    if ls == [] then []
    else if raises(ls[0]) then [ls[0]]
    else [ls[0]] + Called(ls[1..], raises)
  }

  predicate AnyRaises(ls: seq<ListenerId>, raises: ListenerId -> bool)
  {
    exists i :: 0 <= i < |ls| && raises(ls[i])
  }

  /** _notify_listeners: the new state and whether an exception escaped. */
  function NotifySpec(s: CoordinatorState, raises: ListenerId -> bool): (CoordinatorState, bool)
  {
    (s.(calls := s.calls + Called(s.listeners, raises)), AnyRaises(s.listeners, raises))
  }

  /** update_data: nothing when switched off; otherwise the data is replaced
      by the fetch result (even None) and the listeners are notified. */
  function UpdateDataSpec(s: CoordinatorState, network: nat -> Attempt, raises: ListenerId -> bool, interval: int): (CoordinatorState, bool)
  {
    if !s.running then (s, false)
    else
      var f := Fetch(s, network, 0, interval);
      NotifySpec(f.0.(data := f.1), raises)
  }

  /** start: switch on, refresh once, then arm the timer (unless the refresh
      raised). */
  function StartSpec(s: CoordinatorState, network: nat -> Attempt, raises: ListenerId -> bool, interval: int): (CoordinatorState, bool)
  {
    var u := UpdateDataSpec(s.(running := true), network, raises, interval);
    if u.1 then u else (u.0.(timerArmed := true), false)
  }

  /** stop: switch off and cancel the timer. */
  function StopSpec(s: CoordinatorState): CoordinatorState
  {
    s.(running := false, timerArmed := false)
  }

  // ---------------------------------------------------------------------
  // The attempt that decides a fetch

  /** The first attempt, from `from` on, that yields a decoded response;
      MAX_RETRIES when every remaining attempt fails. */
  function FirstAnswered(network: nat -> Attempt, from: nat): (k: nat)
    requires from <= MAX_RETRIES
    ensures from <= k <= MAX_RETRIES
    ensures forall i :: from <= i < k ==> network(i).TransportFailure?
    ensures k < MAX_RETRIES ==> network(k).Response?
    decreases MAX_RETRIES - from
  {
    if from == MAX_RETRIES || network(from).Response? then from
    else FirstAnswered(network, from + 1)
  }

  /** The whole effect of a fetch, in terms of the attempt that decides it:
      every failed attempt before it costs one request and one sleep; an
      accepted response returns its data; a rejected response or five failed
      attempts switch the coordinator off with one notification and return
      None.  Nothing else changes. */
  lemma {:induction false} FetchOutcome(s: CoordinatorState, network: nat -> Attempt, retries: nat, interval: int)
    requires retries <= MAX_RETRIES
    ensures var out := Fetch(s, network, retries, interval);
      var s', r := out.0, out.1;
      var k := FirstAnswered(network, retries);
      && s'.data == s.data && s'.listeners == s.listeners && s'.timerArmed == s.timerArmed && s'.calls == s.calls
      && s'.sleeps == s.sleeps + Pauses(k - retries, interval)
      && s'.requests == s.requests + (if k == MAX_RETRIES then k - retries else k - retries + 1)
      && (k == MAX_RETRIES ==>
            r.None? && !s'.running && s'.notifications == s.notifications + [ErrorNotice(NETWORK_FAILURE_MESSAGE)])
      && (k < MAX_RETRIES && Accepted(network(k)) ==>
            r == Payload(network(k).body) && s'.running == s.running && s'.notifications == s.notifications)
      && (k < MAX_RETRIES && !Accepted(network(k)) ==>
            r.None? && !s'.running && s'.notifications == s.notifications + [ErrorNotice(TOKEN_EXPIRED_MESSAGE)])
    decreases MAX_RETRIES - retries
  {
    if retries == MAX_RETRIES || network(retries).Response? {
      assert Pauses(0, interval) == [];
    } else {
      var s1 := s.(requests := s.requests + 1);
      var s2 := s1.(sleeps := s1.sleeps + [Pause(interval)]);
      FetchOutcome(s2, network, retries + 1, interval);
      var k := FirstAnswered(network, retries);
      assert [Pause(interval)] + Pauses(k - (retries + 1), interval) == Pauses(k - retries, interval);
    }
  }

  /** Exhaustion: when every attempt fails, five requests and five sleeps are
      made, exactly one network-failure notification is posted, the
      coordinator switches off and the result is None. */
  lemma ExhaustionNotifiesOnce(s: CoordinatorState, network: nat -> Attempt, interval: int)
    requires forall i :: 0 <= i < MAX_RETRIES ==> network(i).TransportFailure?
    ensures var out := Fetch(s, network, 0, interval);
      && out.1.None? && !out.0.running
      && out.0.requests == s.requests + MAX_RETRIES
      && out.0.sleeps == s.sleeps + Pauses(MAX_RETRIES, interval)
      && out.0.notifications == s.notifications + [ErrorNotice(NETWORK_FAILURE_MESSAGE)]
  {
    FetchOutcome(s, network, 0, interval);
  }

  /** Success: an accepted response on attempt `k` returns its data (an empty
      payload when the member is absent) after k failed attempts, without any
      notification. */
  lemma SuccessAfterFailures(s: CoordinatorState, network: nat -> Attempt, interval: int, k: nat)
    requires k < MAX_RETRIES && Accepted(network(k))
    requires forall i :: 0 <= i < k ==> network(i).TransportFailure?
    ensures var out := Fetch(s, network, 0, interval);
      && out.1 == Payload(network(k).body)
      && out.0.running == s.running
      && out.0.notifications == s.notifications
      && out.0.requests == s.requests + k + 1
      && out.0.sleeps == s.sleeps + Pauses(k, interval)
  {
    FetchOutcome(s, network, 0, interval);
  }

  /** Vendor rejection: a response with any code but 20000 stops the fetch on
      the spot: one request, no sleep, the token-expired notification, and the
      coordinator switched off. */
  lemma RejectionDoesNotRetry(s: CoordinatorState, network: nat -> Attempt, interval: int)
    requires network(0).Response? && network(0).code != Some(SUCCESS_CODE)
    ensures var out := Fetch(s, network, 0, interval);
      && out.1.None? && !out.0.running
      && out.0.requests == s.requests + 1
      && out.0.sleeps == s.sleeps
      && out.0.notifications == s.notifications + [ErrorNotice(TOKEN_EXPIRED_MESSAGE)]
  {
  }

  // ---------------------------------------------------------------------
  // Listeners

  /** When no listener raises, every listener is called exactly once, in
      registration order, and nothing escapes. */
  lemma {:induction false} CalledAll(ls: seq<ListenerId>, raises: ListenerId -> bool)
    requires forall i :: 0 <= i < |ls| ==> !raises(ls[i])
    ensures Called(ls, raises) == ls && !AnyRaises(ls, raises)
  {
    if ls != [] {
      CalledAll(ls[1..], raises);
    }
  }

  /** When listener number `i` is the first to raise, exactly the listeners
      up to and including it are called. */
  lemma {:induction false} CalledUpTo(ls: seq<ListenerId>, raises: ListenerId -> bool, i: nat)
    requires i < |ls| && raises(ls[i])
    requires forall j :: 0 <= j < i ==> !raises(ls[j])
    ensures Called(ls, raises) == ls[..i + 1] && AnyRaises(ls, raises)
  {
    if i > 0 {
      CalledUpTo(ls[1..], raises, i - 1);
      assert [ls[0]] + ls[1..][..i] == ls[..i + 1];
    }
  }

  // ---------------------------------------------------------------------
  // Properties of the state machine

  /** update_data on a switched-off coordinator fetches nothing, keeps the
      data and calls no listener. */
  lemma UpdateWhenStoppedIsNoOp(s: CoordinatorState, network: nat -> Attempt, raises: ListenerId -> bool, interval: int)
    requires !s.running
    ensures UpdateDataSpec(s, network, raises, interval) == (s, false)
  {
  }

  /** update_data on a running coordinator replaces the data wholesale by the
      fetch result and, when no listener raises, calls every listener once in
      order. */
  lemma UpdateReplacesDataAndNotifiesAll(s: CoordinatorState, network: nat -> Attempt, raises: ListenerId -> bool, interval: int)
    requires s.running
    requires forall i :: 0 <= i < |s.listeners| ==> !raises(s.listeners[i])
    ensures var u := UpdateDataSpec(s, network, raises, interval);
      && u.0.data == Fetch(s, network, 0, interval).1
      && u.0.calls == s.calls + s.listeners
      && u.0.listeners == s.listeners
      && !u.1
  {
    FetchOutcome(s, network, 0, interval);
    CalledAll(s.listeners, raises);
  }

  /** A failed refresh (five failed attempts or a vendor rejection) still
      overwrites the data with None, switches the coordinator off and still
      notifies every listener. */
  lemma FailedUpdateClearsDataAndNotifies(s: CoordinatorState, network: nat -> Attempt, raises: ListenerId -> bool, interval: int)
    requires s.running
    requires FirstAnswered(network, 0) == MAX_RETRIES || !Accepted(network(FirstAnswered(network, 0)))
    requires forall i :: 0 <= i < |s.listeners| ==> !raises(s.listeners[i])
    ensures var u := UpdateDataSpec(s, network, raises, interval);
      u.0.data.None? && !u.0.running && u.0.calls == s.calls + s.listeners && !u.1
  {
    FetchOutcome(s, network, 0, interval);
    UpdateReplacesDataAndNotifiesAll(s, network, raises, interval);
  }

  /** An error in one refresh switches the coordinator off, so every later
      timer tick does nothing, whatever the network does then. */
  lemma ErrorSilencesLaterTicks(s: CoordinatorState, network: nat -> Attempt, later: nat -> Attempt,
                                raises: ListenerId -> bool, interval: int)
    requires s.running
    requires FirstAnswered(network, 0) == MAX_RETRIES || !Accepted(network(FirstAnswered(network, 0)))
    ensures var u := UpdateDataSpec(s, network, raises, interval);
      !u.0.running && UpdateDataSpec(u.0, later, raises, interval) == (u.0, false)
  {
    FetchOutcome(s, network, 0, interval);
  }

  /** A listener that raises aborts the round: the listeners after it are not
      called, and the exception escapes update_data. */
  lemma RaisingListenerAbortsRound(s: CoordinatorState, network: nat -> Attempt, raises: ListenerId -> bool, interval: int, i: nat)
    requires s.running
    requires i < |s.listeners| && raises(s.listeners[i])
    requires forall j :: 0 <= j < i ==> !raises(s.listeners[j])
    ensures var u := UpdateDataSpec(s, network, raises, interval);
      u.1 && u.0.calls == s.calls + s.listeners[..i + 1]
  {
    FetchOutcome(s, network, 0, interval);
    CalledUpTo(s.listeners, raises, i);
  }

  /** start arms the timer even when its first fetch fails (on the network or
      by a vendor rejection); the coordinator then ends up switched off with an
      armed timer. */
  lemma StartArmsTimerDespiteFailure(s: CoordinatorState, network: nat -> Attempt, raises: ListenerId -> bool, interval: int)
    requires FirstAnswered(network, 0) == MAX_RETRIES || !Accepted(network(FirstAnswered(network, 0)))
    requires forall i :: 0 <= i < |s.listeners| ==> !raises(s.listeners[i])
    ensures var st := StartSpec(s, network, raises, interval);
      st.0.timerArmed && !st.0.running && st.0.data.None? && !st.1
  {
    FailedUpdateClearsDataAndNotifies(s.(running := true), network, raises, interval);
  }

  /** stop twice is stop once. */
  lemma StopIdempotent(s: CoordinatorState)
    ensures StopSpec(StopSpec(s)) == StopSpec(s) && !StopSpec(s).running && !StopSpec(s).timerArmed
  {
  }

  // ---------------------------------------------------------------------
  // The coordinator object

  class UpdateCoordinator {
    var data: Option<Snapshot>
    var isRunning: bool
    var listeners: seq<ListenerId>
    var timerArmed: bool
    var notifications: seq<Notification>
    var calls: seq<ListenerId>
    var sleeps: seq<real>
    var requests: nat
    /** Seconds between timer ticks. */
    const updateInterval: int

    function View(): CoordinatorState
      reads this
    {
      CoordinatorState(data, isRunning, listeners, timerArmed, notifications, calls, sleeps, requests)
    }

    constructor (updateInterval: int)
      ensures View() == Initial() && this.updateInterval == updateInterval
    {
      data := None;
      isRunning := true;
      listeners := [];
      timerArmed := false;
      notifications := [];
      calls := [];
      sleeps := [];
      requests := 0;
      this.updateInterval := updateInterval;
    }

    /** async_add_listener: appends one entry; duplicates are kept. */
    method AddListener(listener: ListenerId)
      modifies this
      ensures View() == old(View()).(listeners := old(listeners) + [listener])
    {
      listeners := listeners + [listener];
    }

    /** _notify_listeners: calls the listeners in order; the first one that
        raises ends the round and its exception escapes. */
    method NotifyListeners(raises: ListenerId -> bool) returns (raised: bool)
      modifies this
      ensures (View(), raised) == NotifySpec(old(View()), raises)
    {
      var i := 0;
      while i < |listeners|
        invariant 0 <= i <= |listeners|
        invariant listeners == old(listeners)
        invariant View() == old(View()).(calls := old(calls) + listeners[..i])
        invariant forall j :: 0 <= j < i ==> !raises(listeners[j])
      {
        calls := calls + [listeners[i]];
        assert listeners[..i] + [listeners[i]] == listeners[..i + 1];
        assert calls == old(calls) + listeners[..i + 1];
        if raises(listeners[i]) {
          CalledUpTo(listeners, raises, i);
          return true;
        }
        i := i + 1;
      }
      assert listeners[..i] == listeners;
      CalledAll(listeners, raises);
      raised := false;
    }

    /** handle_error: switches the coordinator off and posts the notification. */
    method HandleError(message: string)
      modifies this
      ensures View() == HandleErrorSpec(old(View()), message)
    {
      isRunning := false;
      notifications := notifications + [ErrorNotice(message)];
    }

    /** fetch_vehicle_status: up to MAX_RETRIES attempts, sleeping after each
        failed one. */
    method FetchVehicleStatus(network: nat -> Attempt) returns (result: Option<Snapshot>)
      modifies this
      ensures (View(), result) == Fetch(old(View()), network, 0, updateInterval)
    {
      var retries := 0;
      while retries < MAX_RETRIES
        invariant 0 <= retries <= MAX_RETRIES
        invariant Fetch(View(), network, retries, updateInterval) == Fetch(old(View()), network, 0, updateInterval)
        decreases MAX_RETRIES - retries
      {
        requests := requests + 1;
        var attempt := network(retries);
        if attempt.Response? {
          if attempt.code == Some(SUCCESS_CODE) {
            return Payload(attempt.body);
          }
          HandleError(TOKEN_EXPIRED_MESSAGE);
          return None;
        }
        retries := retries + 1;
        sleeps := sleeps + [Pause(updateInterval)];
      }
      HandleError(NETWORK_FAILURE_MESSAGE);
      result := None;
    }

    /** update_data: one timer tick. */
    method UpdateData(network: nat -> Attempt, raises: ListenerId -> bool) returns (raised: bool)
      modifies this
      ensures (View(), raised) == UpdateDataSpec(old(View()), network, raises, updateInterval)
    {
      if !isRunning {
        return false;
      }
      data := FetchVehicleStatus(network);
      raised := NotifyListeners(raises);
    }

    /** start: switches on, refreshes once and arms the timer; an exception
        from the first refresh escapes before the timer is armed. */
    method Start(network: nat -> Attempt, raises: ListenerId -> bool) returns (raised: bool)
      modifies this
      ensures (View(), raised) == StartSpec(old(View()), network, raises, updateInterval)
    {
      isRunning := true;
      raised := UpdateData(network, raises);
      if raised {
        return;
      }
      timerArmed := true;
    }

    /** stop: switches off and cancels the timer if one is armed. */
    method Stop()
      modifies this
      ensures View() == StopSpec(old(View()))
    {
      isRunning := false;
      if timerArmed {
        timerArmed := false;
      }
    }
  }
}
