/**
 * What a `PermissionUtil` controller does with each call it receives, as a
 * function of its two listener slots: the slots afterwards, the calls it
 * forwards to its host adapter (`PermissionFragment`) and the events it emits
 * (listener callbacks and log records). `Run` folds that over a trace of calls.
 */
module Protocol {
  import opened Wrappers

  /** A permission identifier such as "android.permission.CAMERA". */
  type Permission = string

  /** The identity of a caller's listener object of each kind. */
  datatype PermissionListener = PermissionListener(id: nat)
  datatype InstallListener = InstallListener(id: nat)

  /** `requestPermissionListener` and `requestInstallAppListener`. */
  datatype Slots = Slots(permission: Option<PermissionListener>, install: Option<InstallListener>)

  /** Both slots empty, as after construction or `removeListener()`. */
  const Empty := Slots(None, None)

  /** The calls a controller receives, from its caller or from its adapter. */
  datatype Input =
    | Request(msg: Text, permissions: Option<seq<Permission>>, listener: Option<PermissionListener>)
    | RequestOne(msg: Text, permission: Permission, listener: Option<PermissionListener>)
    | RequestBack(granted: bool, isAlwaysDenied: bool)
    | RequestInstallApp(installListener: Option<InstallListener>)
    | CallCanInstallApp(canInstall: bool)
    | RemoveListener
  {
    /** The two hooks through which the adapter reports a result. */
    predicate IsResult() {
      RequestBack? || CallCanInstallApp?
    }
  }

  /** The calls a controller makes on its `PermissionFragment`. */
  datatype AdapterCall =
    | AdapterRequest(msg: Text, permissions: seq<Permission>)
    | AdapterRequestInstallApp

  datatype Level = Error | Debug

  const NoHostMessage: string := "PermissionUtil must set activity or fragment"
  const NoPermissionMessage: string := "permissions requires at least one input permission"

  /** What a controller emits: a callback into a listener, or a log record. */
  datatype Event =
    | Callback(to: PermissionListener, granted: bool, isAlwaysDenied: bool)
    | CanInstallApp(target: InstallListener, canInstall: bool)
    | Log(level: Level, message: string)

  datatype Effect = Effect(slots: Slots, calls: seq<AdapterCall>, events: seq<Event>)

  /** A permission array that `request` accepts: not `null` and not empty. */
  predicate Acceptable(permissions: Option<seq<Permission>>) {
    permissions.Some? && |permissions.value| > 0
  }

  /** `request(msg, permissions, listener)`, the array overload. */
  function RequestEffect(attached: bool, s: Slots, msg: Text, permissions: Option<seq<Permission>>,
                         listener: Option<PermissionListener>): Effect
  {
    if !attached then
      Effect(s, [], [Log(Error, NoHostMessage)])
    else if !Acceptable(permissions) then
      Effect(s, [], [Log(Debug, NoPermissionMessage)])
    else
      Effect(s.(permission := listener), [AdapterRequest(msg, permissions.value)], [])
  }

  /**
   * One call to a controller that has (`attached`) or lacks a host adapter.
   */
  function Step(attached: bool, s: Slots, i: Input): (e: Effect)
    // bounded effect: at most one adapter call and one event per input
    ensures |e.calls| <= 1 && |e.events| <= 1
    // no adapter, no adapter call
    ensures e.calls != [] ==> attached
    // without an adapter only removeListener changes a slot
    ensures !attached && !i.RemoveListener? ==> e.slots == s
    // a result hook never changes a slot and never calls the adapter
    ensures i.IsResult() ==> e.slots == s && e.calls == []
    // each slot is written only by its own entry point or by removeListener
    ensures e.slots.permission != s.permission ==> i.Request? || i.RequestOne? || i.RemoveListener?
    ensures e.slots.install != s.install ==> i.RequestInstallApp? || i.RemoveListener?
    // a callback goes to the stored listener, carrying the reported result
    ensures forall ev :: ev in e.events && ev.Callback? ==>
              s.permission == Some(ev.to) && i == RequestBack(ev.granted, ev.isAlwaysDenied)
    ensures forall ev :: ev in e.events && ev.CanInstallApp? ==>
              s.install == Some(ev.target) && i == CallCanInstallApp(ev.canInstall)
    // a result is dropped exactly when no listener is stored
    ensures i.RequestBack? ==> (e.events == [] <==> s.permission.None?)
    ensures i.CallCanInstallApp? ==> (e.events == [] <==> s.install.None?)
    // a result is delivered to the stored listener when there is one
    ensures i.RequestBack? && s.permission.Some? ==>
              e.events == [Callback(s.permission.value, i.granted, i.isAlwaysDenied)]
    ensures i.CallCanInstallApp? && s.install.Some? ==>
              e.events == [CanInstallApp(s.install.value, i.canInstall)]
  {
    match i
    case Request(msg, permissions, listener) =>
      RequestEffect(attached, s, msg, permissions, listener)
    case RequestOne(msg, permission, listener) =>
      RequestEffect(attached, s, msg, Some([permission]), listener)
    case RequestBack(granted, isAlwaysDenied) =>
      if s.permission.Some? then
        Effect(s, [], [Callback(s.permission.value, granted, isAlwaysDenied)])
      else
        Effect(s, [], [])
    case RequestInstallApp(listener) =>
      if !attached then
        Effect(s, [], [Log(Error, NoHostMessage)])
      else
        Effect(s.(install := listener), [AdapterRequestInstallApp], [])
    case CallCanInstallApp(canInstall) =>
      if s.install.Some? then
        Effect(s, [], [CanInstallApp(s.install.value, canInstall)])
      else
        Effect(s, [], [])
    case RemoveListener =>
      Effect(Empty, [], [])
  }

  /** A trace of calls, applied in order; calls and events are concatenated. */
  function Run(attached: bool, s: Slots, t: seq<Input>): (e: Effect)
    decreases |t|
  {
    if t == [] then Effect(s, [], [])
    else
      var first := Step(attached, s, t[0]);
      var rest := Run(attached, first.slots, t[1..]);
      Effect(rest.slots, first.calls + rest.calls, first.events + rest.events)
  }

  // ---------------------------------------------------------------------------
  // One call

  /** Without an adapter, both entry points change nothing, call nothing and log an error. */
  lemma DetachedEntryIsNoOp(s: Slots, i: Input)
    requires i.Request? || i.RequestOne? || i.RequestInstallApp?
    ensures Step(false, s, i) == Effect(s, [], [Log(Error, NoHostMessage)])
  {
  }

  /** A `null` or empty permission array leaves both slots alone and calls nothing. */
  lemma RejectedRequestIsNoOp(s: Slots, msg: Text, permissions: Option<seq<Permission>>, l: Option<PermissionListener>)
    requires !Acceptable(permissions)
    ensures Step(true, s, Request(msg, permissions, l)) == Effect(s, [], [Log(Debug, NoPermissionMessage)])
  {
  }

  /** An accepted request stores its listener over any earlier one, keeps the install slot
      and forwards exactly one call carrying the same message and permissions. */
  lemma AcceptedRequest(s: Slots, msg: Text, p: seq<Permission>, l: Option<PermissionListener>)
    requires |p| > 0
    ensures Step(true, s, Request(msg, Some(p), l)) == Effect(Slots(l, s.install), [AdapterRequest(msg, p)], [])
  {
  }

  /** The single-permission overload is the array overload applied to a one-element array. */
  lemma RequestOneIsArrayOfOne(attached: bool, s: Slots, msg: Text, p: Permission, l: Option<PermissionListener>)
    ensures Step(attached, s, RequestOne(msg, p, l)) == Step(attached, s, Request(msg, Some([p]), l))
    ensures attached ==> Step(attached, s, RequestOne(msg, p, l)).calls == [AdapterRequest(msg, [p])]
  {
  }

  /** An install request stores only the install listener and forwards one call. */
  lemma AcceptedInstallRequest(s: Slots, l: Option<InstallListener>)
    ensures Step(true, s, RequestInstallApp(l)) == Effect(Slots(s.permission, l), [AdapterRequestInstallApp], [])
  {
  }

  // ---------------------------------------------------------------------------
  // Traces

  /** Running `t1 + t2` is running `t1` and then `t2` from where it left off. */
  lemma {:induction false} RunAppend(attached: bool, s: Slots, t1: seq<Input>, t2: seq<Input>)
    ensures var e1 := Run(attached, s, t1);
            var e2 := Run(attached, e1.slots, t2);
            Run(attached, s, t1 + t2) == Effect(e2.slots, e1.calls + e2.calls, e1.events + e2.events)
    decreases |t1|
  {
    if t1 == [] {
      assert t1 + t2 == t2;
    } else {
      var t := t1 + t2;
      assert t[0] == t1[0];
      assert t[1..] == t1[1..] + t2;
      var first := Step(attached, s, t1[0]);
      RunAppend(attached, first.slots, t1[1..], t2);
      var mid := Run(attached, first.slots, t1[1..]);
      var last := Run(attached, mid.slots, t2);
      calc {
        Run(attached, s, t);
        Effect(Run(attached, first.slots, t[1..]).slots,
               first.calls + Run(attached, first.slots, t[1..]).calls,
               first.events + Run(attached, first.slots, t[1..]).events);
        Effect(last.slots, first.calls + (mid.calls + last.calls), first.events + (mid.events + last.events));
        { assert first.calls + (mid.calls + last.calls) == (first.calls + mid.calls) + last.calls;
          assert first.events + (mid.events + last.events) == (first.events + mid.events) + last.events; }
        Effect(last.slots, (first.calls + mid.calls) + last.calls, (first.events + mid.events) + last.events);
      }
    }
  }

  /** A trace of result reports only: what the adapter may deliver after the caller stops. */
  predicate OnlyResults(t: seq<Input>) {
    forall k :: 0 <= k < |t| ==> t[k].IsResult()
  }

  /** The number of listener callbacks (of either kind) among `events`. */
  function Callbacks(events: seq<Event>): (n: nat)
    ensures n <= |events|
  {
    if events == [] then 0
    else (if events[0].Log? then 0 else 1) + Callbacks(events[1..])
  }

  /** The number of result reports in a trace. */
  function Results(t: seq<Input>): (n: nat)
    ensures n <= |t|
  {
    if t == [] then 0
    else (if t[0].IsResult() then 1 else 0) + Results(t[1..])
  }

  lemma {:induction false} CallbacksAppend(a: seq<Event>, b: seq<Event>)
    ensures Callbacks(a + b) == Callbacks(a) + Callbacks(b)
    decreases |a|
  {
    if a == [] {
      assert a + b == b;
    } else {
      assert (a + b)[1..] == a[1..] + b;
      CallbacksAppend(a[1..], b);
    }
  }

  /** At most one callback per result report, over any trace: no report is delivered twice
      and nothing but a report causes a callback. */
  lemma {:induction false} AtMostOneCallbackPerResult(attached: bool, s: Slots, t: seq<Input>)
    ensures Callbacks(Run(attached, s, t).events) <= Results(t)
    decreases |t|
  {
    if t != [] {
      var first := Step(attached, s, t[0]);
      AtMostOneCallbackPerResult(attached, first.slots, t[1..]);
      CallbacksAppend(first.events, Run(attached, first.slots, t[1..]).events);
      assert Callbacks(first.events) <= (if t[0].IsResult() then 1 else 0) by {
        if first.events != [] {
          assert first.events == [first.events[0]];
        }
      }
    }
  }

  /** A controller without an adapter never calls one and never stores a new listener:
      each slot afterwards is the one it started with, or empty. */
  lemma {:induction false} DetachedRunIsInert(s: Slots, t: seq<Input>)
    ensures Run(false, s, t).calls == []
    ensures Run(false, s, t).slots.permission in {s.permission, None}
    ensures Run(false, s, t).slots.install in {s.install, None}
    decreases |t|
  {
    if t != [] {
      var first := Step(false, s, t[0]);
      DetachedRunIsInert(first.slots, t[1..]);
    }
  }

  /** After `removeListener()`, wherever it comes in a trace, no result the adapter reports
      later reaches any listener, and both slots stay empty. */
  lemma {:induction false} RemovedListenersHearNothing(attached: bool, s: Slots, before: seq<Input>, after: seq<Input>)
    requires OnlyResults(after)
    ensures var e := Run(attached, s, before + [RemoveListener] + after);
            && e.slots == Empty
            && e.calls == Run(attached, s, before).calls
            && e.events == Run(attached, s, before).events
  {
    var mid := Run(attached, s, before);
    RunAppend(attached, s, before, [RemoveListener] + after);
    assert before + [RemoveListener] + after == before + ([RemoveListener] + after);
    assert ([RemoveListener] + after)[1..] == after;
    EmptySlotsStaySilent(attached, after);
  }

  lemma {:induction false} EmptySlotsStaySilent(attached: bool, t: seq<Input>)
    requires OnlyResults(t)
    ensures Run(attached, Empty, t) == Effect(Empty, [], [])
    decreases |t|
  {
    if t != [] {
      assert OnlyResults(t[1..]) by {
        forall k | 0 <= k < |t[1..]| ensures t[1..][k].IsResult() { assert t[1..][k] == t[k + 1]; }
      }
      EmptySlotsStaySilent(attached, t[1..]);
    }
  }

  /** Inputs that write the permission slot. */
  predicate WritesPermission(i: Input) {
    i.Request? || i.RequestOne? || i.RemoveListener?
  }

  /** Last writer wins: once an accepted request has stored `l`, every permission callback
      until the next request or `removeListener()` goes to `l`, one per `requestBack`, and
      the earlier listener hears nothing more. The slot is never cleared by a callback. */
  lemma {:induction false} LastWriterWins(s: Slots, msg: Text, p: seq<Permission>, l: PermissionListener, t: seq<Input>)
    requires |p| > 0
    requires forall k :: 0 <= k < |t| ==> !WritesPermission(t[k])
    ensures var e := Run(true, s, [Request(msg, Some(p), Some(l))] + t);
            && e.slots.permission == Some(l)
            && (forall ev :: ev in e.events && ev.Callback? ==> ev.to == l)
  {
    var t' := [Request(msg, Some(p), Some(l))] + t;
    assert t'[1..] == t;
    StoredListenerHearsAll(Slots(Some(l), s.install), t);
  }

  lemma {:induction false} StoredListenerHearsAll(s: Slots, t: seq<Input>)
    requires s.permission.Some?
    requires forall k :: 0 <= k < |t| ==> !WritesPermission(t[k])
    ensures var e := Run(true, s, t);
            && e.slots.permission == s.permission
            && (forall ev :: ev in e.events && ev.Callback? ==> Some(ev.to) == s.permission)
    decreases |t|
  {
    if t != [] {
      var first := Step(true, s, t[0]);
      StoredListenerHearsAll(first.slots, t[1..]);
    }
  }

  /** The install slot is untouched by every permission-flow input, over any trace. */
  lemma {:induction false} PermissionFlowKeepsInstallSlot(attached: bool, s: Slots, t: seq<Input>)
    requires forall k :: 0 <= k < |t| ==> !t[k].RequestInstallApp? && !t[k].RemoveListener?
    ensures Run(attached, s, t).slots.install == s.install
    decreases |t|
  {
    if t != [] {
      var first := Step(attached, s, t[0]);
      PermissionFlowKeepsInstallSlot(attached, first.slots, t[1..]);
    }
  }

  /** The permission slot is untouched by every install-flow input, over any trace. */
  lemma {:induction false} InstallFlowKeepsPermissionSlot(attached: bool, s: Slots, t: seq<Input>)
    requires forall k :: 0 <= k < |t| ==> t[k].RequestInstallApp? || t[k].CallCanInstallApp?
    ensures Run(attached, s, t).slots.permission == s.permission
    decreases |t|
  {
    if t != [] {
      var first := Step(attached, s, t[0]);
      InstallFlowKeepsPermissionSlot(attached, first.slots, t[1..]);
    }
  }

  /** `requestBack` does not consume the listener: `n` reports to a stored listener
      produce `n` callbacks, in order, each with its own result. */
  lemma {:induction false} EveryReportIsDelivered(attached: bool, s: Slots, t: seq<Input>)
    requires s.permission.Some?
    requires forall k :: 0 <= k < |t| ==> t[k].RequestBack?
    ensures var e := Run(attached, s, t);
            && e.slots == s
            && |e.events| == |t|
            && forall k :: 0 <= k < |t| ==>
                 e.events[k] == Callback(s.permission.value, t[k].granted, t[k].isAlwaysDenied)
    decreases |t|
  {
    if t != [] {
      EveryReportIsDelivered(attached, s, t[1..]);
    }
  }

  /** `callCanInstallApp` does not consume the listener either: `n` install reports to a
      stored install listener produce `n` `canInstallApp` events, in order, each with its value. */
  lemma {:induction false} EveryInstallReportIsDelivered(attached: bool, s: Slots, t: seq<Input>)
    requires s.install.Some?
    requires forall k :: 0 <= k < |t| ==> t[k].CallCanInstallApp?
    ensures var e := Run(attached, s, t);
            && e.slots == s
            && |e.events| == |t|
            && forall k :: 0 <= k < |t| ==> e.events[k] == CanInstallApp(s.install.value, t[k].canInstall)
    decreases |t|
  {
    if t != [] {
      EveryInstallReportIsDelivered(attached, s, t[1..]);
    }
  }
}
