/** The OpenThread platform glue: the registry of state-change callbacks with
    its ordered fan-out, the tasklet drain cycle of the work item, the
    re-initialisation guard, and the start-up and stop sequences.  Calls into
    the OpenThread engine are not modelled; their answers are parameters and
    the calls made are returned as a log. */
module OpenThread {
  import opened Errno

  /** A C pointer: NULL or some address.  Used for the callback function
      pointer, the `void *user_data` and the `otInstance *`. */
  datatype Ptr = Null | Addr(addr: nat)

  /** `otChangedFlags`, a 32-bit set of flags. */
  type ChangedFlags = x: int | 0 <= x < 0x1_0000_0000

  /** `otError`; zero is success. */
  type OtError = nat
  const OT_ERROR_NONE: OtError := 0

  /** `struct openthread_state_changed_callback`: a record owned by the caller,
      identified by its address.  Its intrusive list node is represented by
      its position in `OpenThreadContext.callbacks`. */
  class StateChangedCallback {
    var callback: Ptr
    var userData: Ptr

    constructor (callback: Ptr, userData: Ptr)
      ensures this.callback == callback && this.userData == userData
    {
      this.callback := callback;
      this.userData := userData;
    }
  }

  /** One call `callback(flags, instance, user_data)` made by the state-change handler. */
  datatype Notification = Notification(callback: nat, flags: ChangedFlags, instance: Ptr, userData: Ptr)

  /** The calls the glue makes into the OpenThread engine. */
  datatype EngineCall =
    | TaskletsProcess
    | ProcessDrivers
    | SetNetworkName(name: string)
    | SetChannel(channel: nat)
    | SetPanId(panId: nat)
    | SetExtendedPanId(extPanId: string)
    | SetNetworkKey(key: string)
    | SetEnabled(on: bool)
    | JoinerStart(pskd: string)

  /** The build-time settings `openthread_run` reads (network name, channel,
      PAN ID, extended PAN ID, network key, joiner autostart and PSKd). */
  datatype Settings = Settings(
    networkName: string, channel: nat, panId: nat, extPanId: string,
    networkKey: string, joinerAutostart: bool, joinerPskd: string)

  /** What the engine answers `openthread_run`: whether a dataset is stored,
      and the error each configuration call returns. */
  datatype Engine = Engine(commissioned: bool, reply: EngineCall -> OtError)

  ghost predicate Distinct(s: seq<StateChangedCallback>)
  {
    forall i, j :: 0 <= i < j < |s| ==> s[i] != s[j]
  }

  // ---------------------------------------------------------------------------
  // The registry as a sequence

  /** `s` with `e` taken out and the other entries in their original order. */
  function Without(s: seq<StateChangedCallback>, e: StateChangedCallback): (r: seq<StateChangedCallback>)
    ensures |r| <= |s|
  {
    if s == [] then [] else (if s[0] == e then [] else [s[0]]) + Without(s[1..], e)
  }

  /** Exactly `e` is gone: every other listed entry is still listed. */
  lemma {:induction false} WithoutMembers(s: seq<StateChangedCallback>, e: StateChangedCallback, x: StateChangedCallback)
    ensures x in Without(s, e) <==> x in s && x != e
  {
    if s != [] {
      WithoutMembers(s[1..], e, x);
      assert x in s <==> x == s[0] || x in s[1..];
    }
  }

  lemma {:induction false} WithoutAbsent(s: seq<StateChangedCallback>, e: StateChangedCallback)
    requires e !in s
    ensures Without(s, e) == s
  {
    if s != [] {
      WithoutAbsent(s[1..], e);
      assert s == [s[0]] + s[1..];
    }
  }

  /** Removing the entry found at position `i` of a list without duplicates
      is the same as filtering that entry out. */
  lemma {:induction false} RemoveAtIsWithout(s: seq<StateChangedCallback>, i: nat)
    requires Distinct(s)
    requires i < |s|
    ensures s[..i] + s[i + 1..] == Without(s, s[i])
    ensures Distinct(s[..i] + s[i + 1..])
  {
    if i == 0 {
      assert s[0] !in s[1..] by {
        forall k | 0 <= k < |s[1..]| ensures s[1..][k] != s[0] {
          assert s[1..][k] == s[k + 1];
        }
      }
      WithoutAbsent(s[1..], s[0]);
    } else {
      var t := s[1..];
      assert Distinct(t) by {
        forall a, b | 0 <= a < b < |t| ensures t[a] != t[b] {
          assert t[a] == s[a + 1] && t[b] == s[b + 1];
        }
      }
      assert t[i - 1] == s[i];
      RemoveAtIsWithout(t, i - 1);
      assert s[0] != s[i];
      assert s[..i] + s[i + 1..] == [s[0]] + (t[..i - 1] + t[i..]);
    }
    var r := s[..i] + s[i + 1..];
    forall a, b | 0 <= a < b < |r| ensures r[a] != r[b] {
      var a' := if a < i then a else a + 1;
      var b' := if b < i then b else b + 1;
      assert r[a] == s[a'] && r[b] == s[b'];
    }
  }

  /** Unregistering an entry right after registering it restores the list. */
  lemma {:induction false} UnregisterUndoesRegister(s: seq<StateChangedCallback>, e: StateChangedCallback)
    requires e !in s
    ensures Without(s + [e], e) == s
  {
    if s == [] {
      assert [e][1..] == [];
    } else {
      assert (s + [e])[1..] == s[1..] + [e];
      UnregisterUndoesRegister(s[1..], e);
      assert s == [s[0]] + s[1..];
    }
  }

  /** Registering `e` and unregistering another entry `x` commute: the
      entries registered earlier keep their order and `e` stays last. */
  lemma {:induction false} UnregisterOtherKeepsLast(s: seq<StateChangedCallback>, e: StateChangedCallback, x: StateChangedCallback)
    requires e != x
    ensures Without(s + [e], x) == Without(s, x) + [e]
  {
    if s == [] {
      assert [e][1..] == [];
    } else {
      assert (s + [e])[1..] == s[1..] + [e];
      UnregisterOtherKeepsLast(s[1..], e, x);
    }
  }

  // ---------------------------------------------------------------------------
  // Fan-out of one state-change event

  /** The calls made for one entry: none when its callback is NULL. */
  function Notify(e: StateChangedCallback, flags: ChangedFlags, instance: Ptr): seq<Notification>
    reads e
  {
    if e.callback == Null then [] else [Notification(e.callback.addr, flags, instance, e.userData)]
  }

  /** The calls the handler makes for `entries`, in list order. */
  function Notifications(entries: seq<StateChangedCallback>, flags: ChangedFlags, instance: Ptr): (calls: seq<Notification>)
    reads entries
    ensures |calls| <= |entries|
  {
    if entries == [] then []
    else Notifications(entries[..|entries| - 1], flags, instance) + Notify(entries[|entries| - 1], flags, instance)
  }

  lemma {:induction false} NotificationsAppend(s: seq<StateChangedCallback>, t: seq<StateChangedCallback>, flags: ChangedFlags, instance: Ptr)
    ensures Notifications(s + t, flags, instance) == Notifications(s, flags, instance) + Notifications(t, flags, instance)
  {
    if t == [] {
      assert s + t == s;
    } else {
      var t' := t[..|t| - 1];
      assert (s + t)[..|s + t| - 1] == s + t';
      assert (s + t)[|s + t| - 1] == t[|t| - 1];
      NotificationsAppend(s, t', flags, instance);
    }
  }

  /** When every registered entry has a callback, each is called exactly once,
      in registration order, with the event flags, the instance and its own
      user data. */
  lemma {:induction false} NotificationsInOrder(s: seq<StateChangedCallback>, flags: ChangedFlags, instance: Ptr)
    requires forall e :: e in s ==> e.callback != Null
    ensures |Notifications(s, flags, instance)| == |s|
    ensures forall k :: 0 <= k < |s| ==>
      Notifications(s, flags, instance)[k] == Notification(s[k].callback.addr, flags, instance, s[k].userData)
  {
    if s != [] {
      var s' := s[..|s| - 1];
      NotificationsInOrder(s', flags, instance);
      var calls := Notifications(s, flags, instance);
      forall k | 0 <= k < |s|
        ensures calls[k] == Notification(s[k].callback.addr, flags, instance, s[k].userData)
      {
        if k < |s| - 1 {
          assert s'[k] == s[k];
        }
      }
    }
  }

  /** An entry whose callback is NULL is skipped: dispatch is as if it were not listed. */
  lemma NullEntrySkipped(s: seq<StateChangedCallback>, i: nat, flags: ChangedFlags, instance: Ptr)
    requires i < |s| && s[i].callback == Null
    ensures Notifications(s, flags, instance) == Notifications(s[..i] + s[i + 1..], flags, instance)
  {
    var u, v := s[..i], s[i + 1..];
    assert s == (u + [s[i]]) + v;
    assert (u + [s[i]])[..|u + [s[i]]| - 1] == u;
    NotificationsAppend(u + [s[i]], v, flags, instance);
    NotificationsAppend(u, v, flags, instance);
  }

  /** The entries whose callback is not NULL, in list order. */
  function NonNull(s: seq<StateChangedCallback>): (r: seq<StateChangedCallback>)
    reads s
    ensures |r| <= |s|
    ensures forall k :: 0 <= k < |r| ==> r[k].callback != Null
  {
    if s == [] then []
    else
      var last := s[|s| - 1];
      NonNull(s[..|s| - 1]) + (if last.callback == Null then [] else [last])
  }

  /** An entry is kept iff it is listed and its callback is not NULL. */
  lemma {:induction false} NonNullMembers(s: seq<StateChangedCallback>, x: StateChangedCallback)
    ensures x in NonNull(s) <==> x in s && x.callback != Null
  {
    if s != [] {
      NonNullMembers(s[..|s| - 1], x);
      assert s == s[..|s| - 1] + [s[|s| - 1]];
    }
  }

  /** Dispatch over a list with NULL-callback entries is dispatch over the
      entries that have a callback. */
  lemma {:induction false} NotificationsSkipNull(s: seq<StateChangedCallback>, flags: ChangedFlags, instance: Ptr)
    ensures Notifications(s, flags, instance) == Notifications(NonNull(s), flags, instance)
  {
    if s != [] {
      var s', last := s[..|s| - 1], s[|s| - 1];
      NotificationsSkipNull(s', flags, instance);
      if last.callback == Null {
        assert NonNull(s) == NonNull(s') + [];
        assert NonNull(s) == NonNull(s');
      } else {
        assert NonNull(s) == NonNull(s') + [last];
        assert ([last])[..0] == [];
        NotificationsAppend(NonNull(s'), [last], flags, instance);
      }
    }
  }

  /** The whole dispatch promise: every entry with a callback is called exactly
      once, in registration order, with the event flags, the instance and its
      own user data, and entries with a NULL callback are skipped. */
  lemma {:induction false} DispatchCallsEachNonNullInOrder(s: seq<StateChangedCallback>, flags: ChangedFlags, instance: Ptr)
    ensures |Notifications(s, flags, instance)| == |NonNull(s)|
    ensures forall k :: 0 <= k < |NonNull(s)| ==>
      Notifications(s, flags, instance)[k] == Notification(NonNull(s)[k].callback.addr, flags, instance, NonNull(s)[k].userData)
  {
    NotificationsSkipNull(s, flags, instance);
    var r := NonNull(s);
    forall e | e in r ensures e.callback != Null {
      var k :| 0 <= k < |r| && r[k] == e;
    }
    NotificationsInOrder(r, flags, instance);
  }

  /** The search `sys_slist_find_and_remove` performs: the position of the
      first occurrence of `e`, or -1 when it is not listed. */
  method Find(s: seq<StateChangedCallback>, e: StateChangedCallback) returns (i: int)
    ensures -1 <= i < |s|
    ensures i == -1 <==> e !in s
    ensures 0 <= i ==> s[i] == e && e !in s[..i]
  {
    i := 0;
    while i < |s|
      invariant 0 <= i <= |s|
      invariant e !in s[..i]
    {
      if s[i] == e {
        return;
      }
      assert s[..i + 1] == s[..i] + [s[i]];
      i := i + 1;
    }
    assert s[..i] == s;
    i := -1;
  }

  // ---------------------------------------------------------------------------
  // The module's global state

  /** The globals of the platform module: the instance pointer and the list of
      state-change callbacks. */
  class OpenThreadContext {
    var instance: Ptr
    var callbacks: seq<StateChangedCallback>

    /** The list never holds an entry twice (an intrusive node can be linked once). */
    ghost predicate Valid()
      reads this
    {
      Distinct(callbacks)
    }

    constructor ()
      ensures Valid() && instance == Null && callbacks == []
    {
      instance := Null;
      callbacks := [];
    }

    /** `openthread_init`: a no-op returning true once an instance exists.
        Otherwise the instance is created first; then, unless the build is a
        co-processor, the NAT64 prefix is installed (`nat64Ok` is whether
        parsing and installing it succeeded, consulted only when `nat64`),
        the callback list is emptied and the state-change handler installed,
        whose result is `handlerReply`. */
    method Init(coprocessor: bool, nat64: bool, nat64Ok: bool, handlerReply: OtError, newInstance: nat)
      returns (ok: bool)
      requires Valid()
      modifies this
      ensures Valid()
      ensures old(instance) != Null ==> ok && instance == old(instance) && callbacks == old(callbacks)
      ensures old(instance) == Null ==> instance == Addr(newInstance)
      ensures old(instance) == Null && coprocessor ==> ok && callbacks == old(callbacks)
      ensures old(instance) == Null && !coprocessor ==>
        (ok <==> (!nat64 || nat64Ok) && handlerReply == OT_ERROR_NONE)
      ensures old(instance) == Null && !coprocessor ==>
        callbacks == if nat64 && !nat64Ok then old(callbacks) else []
    {
      if instance != Null {
        return true;
      }
      instance := Addr(newInstance);
      if coprocessor {
        return true;
      }
      if nat64 && !nat64Ok {
        return false;
      }
      callbacks := [];
      if handlerReply != OT_ERROR_NONE {
        return false;
      }
      return true;
    }

    /** `openthread_state_change_callback_register`. */
    method Register(cb: StateChangedCallback?) returns (ret: int)
      requires Valid()
      requires cb == null || cb !in callbacks
      modifies this`callbacks
      ensures Valid()
      ensures ret == 0 || ret == -EINVAL
      ensures ret == -EINVAL <==> cb == null || cb.callback == Null
      ensures ret == 0 ==> cb != null && callbacks == old(callbacks) + [cb]
      ensures ret != 0 ==> callbacks == old(callbacks)
    {
      if cb == null || cb.callback == Null {
        return -EINVAL;
      }
      callbacks := callbacks + [cb];
      return 0;
    }

    /** `openthread_state_change_callback_unregister`. */
    method Unregister(cb: StateChangedCallback?) returns (ret: int)
      requires Valid()
      modifies this`callbacks
      ensures Valid()
      ensures ret == 0 || ret == -EINVAL || ret == -EALREADY
      ensures ret == -EINVAL <==> cb == null
      ensures ret == -EALREADY <==> cb != null && cb !in old(callbacks)
      ensures ret != 0 ==> callbacks == old(callbacks)
      ensures ret == 0 ==> cb != null && callbacks == Without(old(callbacks), cb)
    {
      if cb == null {
        return -EINVAL;
      }
      var i := Find(callbacks, cb);
      if i < 0 {
        return -EALREADY;
      }
      RemoveAtIsWithout(callbacks, i);
      callbacks := callbacks[..i] + callbacks[i + 1..];
      return 0;
    }

    /** `ot_state_changed_handler`: the calls it makes, in order. */
    method StateChanged(flags: ChangedFlags) returns (calls: seq<Notification>)
      ensures calls == Notifications(callbacks, flags, instance)
    {
      calls := [];
      var i := 0;
      while i < |callbacks|
        invariant 0 <= i <= |callbacks|
        invariant calls == Notifications(callbacks[..i], flags, instance)
      {
        var entry := callbacks[i];
        if entry.callback != Null {
          calls := calls + [Notification(entry.callback.addr, flags, instance, entry.userData)];
        }
        assert callbacks[..i + 1][..i] == callbacks[..i];
        i := i + 1;
      }
      assert callbacks[..i] == callbacks;
    }
  }

  /** Entries A, B, C with user data 1, 2, 3: an event with flags 1 reaches
      all three in order; once B is unregistered, an event with flags 2
      reaches A and C only. */
  lemma ThreeEntriesScenario(a: StateChangedCallback, b: StateChangedCallback, c: StateChangedCallback, instance: Ptr)
    requires a != b && b != c && a != c
    requires a.callback == Addr(10) && a.userData == Addr(1)
    requires b.callback == Addr(11) && b.userData == Addr(2)
    requires c.callback == Addr(12) && c.userData == Addr(3)
    ensures Notifications([a, b, c], 1, instance) ==
      [Notification(10, 1, instance, Addr(1)), Notification(11, 1, instance, Addr(2)), Notification(12, 1, instance, Addr(3))]
    ensures Without([a, b, c], b) == [a, c]
    ensures Notifications([a, c], 2, instance) ==
      [Notification(10, 2, instance, Addr(1)), Notification(12, 2, instance, Addr(3))]
  {
    assert Notifications([a], 1, instance) == [Notification(10, 1, instance, Addr(1))] by {
      assert [a][..0] == [];
    }
    assert Notifications([a, b], 1, instance) ==
      [Notification(10, 1, instance, Addr(1)), Notification(11, 1, instance, Addr(2))] by {
      assert [a, b][..1] == [a];
    }
    assert [a, b, c][..2] == [a, b];
    assert Without([c], b) == [c] by {
      assert [c][1..] == [];
    }
    assert Without([b, c], b) == [c] by {
      assert [b, c][1..] == [c];
    }
    assert [a, b, c][1..] == [b, c];
    assert Notifications([a], 2, instance) == [Notification(10, 2, instance, Addr(1))] by {
      assert [a][..0] == [];
    }
    assert [a, c][..1] == [a];
  }

  // ---------------------------------------------------------------------------
  // Work item and start/stop

  /** The position of the first `false` answer. */
  function FirstIdle(pending: seq<bool>): (n: nat)
    requires false in pending
    ensures n < |pending| && !pending[n]
    ensures forall k :: 0 <= k < n ==> pending[k]
  {
    if !pending[0] then 0 else 1 + FirstIdle(pending[1..])
  }

  /** `openthread_process`: `pending` holds the successive answers of
      `otTaskletsArePending`; the engine eventually reports no work. */
  method Process(pending: seq<bool>) returns (calls: seq<EngineCall>)
    requires false in pending
    ensures calls == seq(FirstIdle(pending), _ => TaskletsProcess) + [ProcessDrivers]
    ensures |calls| > 0 && calls[|calls| - 1] == ProcessDrivers && ProcessDrivers !in calls[..|calls| - 1]
  {
    calls := [];
    var polls := 0;
    while pending[polls]
      invariant 0 <= polls <= FirstIdle(pending)
      invariant calls == seq(polls, _ => TaskletsProcess)
      decreases FirstIdle(pending) - polls
    {
      calls := calls + [TaskletsProcess];
      polls := polls + 1;
    }
    calls := calls + [ProcessDrivers];
  }

  /** The configuration calls made when no dataset is stored and the joiner
      does not start by itself; the key only when one is configured. */
  function ConfigurationCalls(s: Settings): seq<EngineCall>
  {
    [SetNetworkName(s.networkName), SetChannel(s.channel), SetPanId(s.panId), SetExtendedPanId(s.extPanId)]
    + (if |s.networkKey| > 0 then [SetNetworkKey(s.networkKey)] else [])
  }

  /** `calls` follows `plan` and stops right after its first failing call. */
  ghost predicate StopsAtFirstFailure(calls: seq<EngineCall>, plan: seq<EngineCall>, reply: EngineCall -> OtError)
  {
    0 < |calls| <= |plan| && calls == plan[..|calls|]
    && (forall k :: 0 <= k < |calls| - 1 ==> reply(calls[k]) == OT_ERROR_NONE)
    && (|calls| < |plan| ==> reply(calls[|calls| - 1]) != OT_ERROR_NONE)
  }

  /** `openthread_run`. */
  method Run(s: Settings, engine: Engine) returns (ret: int, calls: seq<EngineCall>)
    ensures engine.commissioned ==> calls == [SetEnabled(true)]
    ensures !engine.commissioned && s.joinerAutostart ==> calls == [JoinerStart(s.joinerPskd)]
    ensures !engine.commissioned && !s.joinerAutostart ==>
      StopsAtFirstFailure(calls, ConfigurationCalls(s) + [SetEnabled(true)], engine.reply)
    ensures ret == 0 || ret == -EIO
    ensures |calls| > 0 && (ret == 0 <==> engine.reply(calls[|calls| - 1]) == OT_ERROR_NONE)
    ensures ret == 0 <==> forall c :: c in calls ==> engine.reply(c) == OT_ERROR_NONE
  {
    var error := OT_ERROR_NONE;
    calls := [];
    label exit: {
      if engine.commissioned {
        // a dataset is stored: the configuration is skipped
      } else if s.joinerAutostart {
        calls := calls + [JoinerStart(s.joinerPskd)];
        error := engine.reply(JoinerStart(s.joinerPskd));
        break exit;
      } else {
        calls := calls + [SetNetworkName(s.networkName)];
        error := engine.reply(SetNetworkName(s.networkName));
        if error != OT_ERROR_NONE {
          break exit;
        }
        calls := calls + [SetChannel(s.channel)];
        error := engine.reply(SetChannel(s.channel));
        if error != OT_ERROR_NONE {
          break exit;
        }
        calls := calls + [SetPanId(s.panId)];
        error := engine.reply(SetPanId(s.panId));
        if error != OT_ERROR_NONE {
          break exit;
        }
        calls := calls + [SetExtendedPanId(s.extPanId)];
        error := engine.reply(SetExtendedPanId(s.extPanId));
        if error != OT_ERROR_NONE {
          break exit;
        }
        if |s.networkKey| > 0 {
          calls := calls + [SetNetworkKey(s.networkKey)];
          error := engine.reply(SetNetworkKey(s.networkKey));
          if error != OT_ERROR_NONE {
            break exit;
          }
        }
      }
      calls := calls + [SetEnabled(true)];
      error := engine.reply(SetEnabled(true));
    }
    ret := if error == OT_ERROR_NONE then 0 else -EIO;
  }

  /** `openthread_stop`: disables the network unless the build is a
      co-processor, ignores the engine's answer and returns 0. */
  method Stop(coprocessor: bool) returns (ret: int, calls: seq<EngineCall>)
    ensures ret == 0
    ensures calls == if coprocessor then [] else [SetEnabled(false)]
  {
    if coprocessor {
      return 0, [];
    }
    calls := [SetEnabled(false)];
    ret := 0;
  }
}
