/**
 * The driver object for one PowerMate Bluetooth knob: a state machine that
 * scans for the device by address, connects, binds the battery, knob and LED
 * characteristics, decodes notifications into events and tears everything
 * down on disconnect.
 *
 * The Bluetooth stack is not modelled. Everything the driver does to it
 * (scans, connects, writes, listener registrations) and every event it
 * emits to its consumer is appended to `log`; every callback the stack
 * delivers is a method call.
 */
module Device {
  import opened Results
  import opened Text
  import opened Wire

  const SERVICE_UUID := "25598cf7424040a69910080f19f91ebc"
  const BATTERY_CHAR_UUID := "50f09cc9fe1d4c79a962b3a7cd3e5584"
  const KNOB_CHAR_UUID := "9cf53570ddd947f3ba6309acefc60415"
  const LED_CHAR_UUID := "847d189e86ee4bd2966f800832b1259d"

  /** The three characteristic UUIDs are pairwise different; their first digits already differ. */
  lemma CharUuidsDistinct()
    ensures BATTERY_CHAR_UUID != KNOB_CHAR_UUID
    ensures BATTERY_CHAR_UUID != LED_CHAR_UUID
    ensures KNOB_CHAR_UUID != LED_CHAR_UUID
  {
    assert BATTERY_CHAR_UUID[0] == '5' && KNOB_CHAR_UUID[0] == '9' && LED_CHAR_UUID[0] == '8';
  }

  /** The adapter state in which scanning may start. */
  const POWERED_ON := "poweredOn"

  /** The connection status reported to the consumer. */
  datatype Status = Disconnected | Scanning | Connected
  {
    /** The string carried by the `status` event. */
    function Name(): string
    {
      match this
      case Disconnected => "disconnected"
      case Scanning => "scanning"
      case Connected => "connected"
    }
  }

  /** The three status strings are those of the driver's constants, and no two statuses share one. */
  lemma StatusNames()
    ensures Disconnected.Name() == "disconnected"
    ensures Scanning.Name() == "scanning"
    ensures Connected.Name() == "connected"
    ensures forall s: Status, t: Status | s.Name() == t.Name() :: s == t
  {
    assert "disconnected"[0] == 'd' && "scanning"[0] == 's' && "connected"[0] == 'c';
  }

  /** Handles into the Bluetooth stack; `id` stands for object identity. */
  datatype Peripheral = Peripheral(id: nat, address: string)
  datatype Service = Service(id: nat, uuid: string)
  datatype Characteristic = Characteristic(id: nat, uuid: string)

  /** The events the driver emits to its consumer. */
  datatype Event =
    | StatusIs(status: Status)
    | Knob(knob: KnobEvent)
    | BatteryLevel(level: byte)

  /** Where a listener is registered: the adapter, a peripheral, or a characteristic. */
  datatype Target = Adapter | OnPeripheral(p: Peripheral) | OnChar(c: Characteristic)

  /**
   * The driver's bound handlers; each listens to one event name: `discover`,
   * `stateChange`, `connect`, `disconnect`, and `read` for the last two.
   */
  datatype Handler =
    | DiscoverHandler
    | StateChangeHandler
    | ConnectHandler
    | DisconnectHandler
    | BatteryReadHandler
    | KnobReadHandler

  datatype Listener = Listener(target: Target, handler: Handler)

  /** What the driver does to its environment, in order. */
  datatype Action =
    | StartScan(serviceUuids: seq<string>, allowDuplicates: bool)
    | StopScan
    | Connect(peripheral: Peripheral)
    | Disconnect(peripheral: Peripheral)
    | DiscoverSome(peripheral: Peripheral, serviceUuids: seq<string>, charUuids: seq<string>)
    | Notify(characteristic: Characteristic, enable: bool)
    | Write(characteristic: Characteristic, data: seq<byte>, withoutResponse: bool)
    | Attach(listener: Listener)
    | Detach(listener: Listener)
    | Emit(event: Event)

  // ---------------------------------------------------------------------------
  // The action sequences the handlers produce

  const DISCOVER_LISTENER := Listener(Adapter, DiscoverHandler)
  const STATE_CHANGE_LISTENER := Listener(Adapter, StateChangeHandler)

  /** What `onStateChange` does: scan for the service when powered on and holding no peripheral. */
  function ScanActions(state: string, holding: bool): seq<Action>
  {
    if state == POWERED_ON && !holding then
      [Emit(StatusIs(Scanning)), StartScan([SERVICE_UUID], false)]
    else
      []
  }

  /** The listener `onDiscover` registers for the peripheral's `connect` event. */
  function ConnectListener(p: Peripheral): Listener
  {
    Listener(OnPeripheral(p), ConnectHandler)
  }

  /** The listener `onDiscover` registers for the peripheral's `disconnect` event. */
  function DisconnectListener(p: Peripheral): Listener
  {
    Listener(OnPeripheral(p), DisconnectHandler)
  }

  function BatteryListener(c: Characteristic): Listener
  {
    Listener(OnChar(c), BatteryReadHandler)
  }

  function KnobListener(c: Characteristic): Listener
  {
    Listener(OnChar(c), KnobReadHandler)
  }

  /** What the discovery callback does after binding: subscribe to battery, then knob. */
  function SubscribeActions(battery: Option<Characteristic>, knob: Option<Characteristic>): seq<Action>
  {
    if battery.None? then []
    else
      [Notify(battery.value, true), Attach(BatteryListener(battery.value))]
      + if knob.None? then [] else [Notify(knob.value, true), Attach(KnobListener(knob.value))]
  }

  /** What the discovery callback registers: the battery read listener, then the knob's. */
  function SubscribeListeners(battery: Option<Characteristic>, knob: Option<Characteristic>): seq<Listener>
  {
    if battery.None? then []
    else [BatteryListener(battery.value)] + if knob.None? then [] else [KnobListener(knob.value)]
  }

  /** What `onDisconnect` unregisters from a held peripheral: its connect, then its disconnect listener. */
  function PeripheralDetaches(p: Option<Peripheral>): seq<Action>
  {
    if p.None? then []
    else [Detach(ConnectListener(p.value)), Detach(DisconnectListener(p.value))]
  }

  /** What `onDisconnect` unregisters from a bound characteristic: its `read` listener with `handler`. */
  function ReadDetaches(c: Option<Characteristic>, handler: Handler): seq<Action>
  {
    if c.None? then [] else [Detach(Listener(OnChar(c.value), handler))]
  }

  /** What `onDisconnect` unregisters: the peripheral's listeners, then knob, then battery. */
  function TeardownActions(p: Option<Peripheral>, knob: Option<Characteristic>, battery: Option<Characteristic>): seq<Action>
  {
    PeripheralDetaches(p) + ReadDetaches(knob, KnobReadHandler) + ReadDetaches(battery, BatteryReadHandler)
  }

  /** Appending two pieces one at a time appends their concatenation. */
  lemma AppendAssoc<T>(a: seq<T>, b: seq<T>, c: seq<T>)
    ensures a + b + c == a + (b + c)
  {
  }

  /** Appending three pieces one at a time appends their concatenation. */
  lemma Regroup<T>(a: seq<T>, b: seq<T>, c: seq<T>, d: seq<T>)
    ensures a + b + c + d == a + (b + c + d)
  {
  }

  /**
   * `removeListener`: drop the most recently registered instance of `l`, if
   * there is one, and keep the order of the others.
   */
  function RemoveListener(s: seq<Listener>, l: Listener): (r: seq<Listener>)
    ensures l !in s ==> r == s
  {
    if s == [] then []
    else if s[|s| - 1] == l then s[..|s| - 1]
    else RemoveListener(s[..|s| - 1], l) + [s[|s| - 1]]
  }

  /** Removing a listener removes exactly one registration of it, or none when there is none. */
  lemma {:induction false} RemoveListenerCounts(s: seq<Listener>, l: Listener)
    ensures multiset(RemoveListener(s, l)) == multiset(s) - multiset{l}
  {
    if s != [] {
      var init, last := s[..|s| - 1], s[|s| - 1];
      assert s == init + [last];
      if last != l {
        RemoveListenerCounts(init, l);
      }
    }
  }

  /** Removing keeps only registrations that were there, and removes the only one of `l` from a duplicate-free registry. */
  lemma {:induction false} RemoveListenerShrinks(s: seq<Listener>, l: Listener)
    ensures forall x | x in RemoveListener(s, l) :: x in s
    ensures Distinct(s) ==> Distinct(RemoveListener(s, l)) && l !in RemoveListener(s, l)
  {
    if s != [] {
      var init, last := s[..|s| - 1], s[|s| - 1];
      assert s == init + [last];
      if Distinct(s) {
        forall i, j | 0 <= i < j < |init|
          ensures init[i] != init[j]
        {
          assert s[i] == init[i] && s[j] == init[j];
        }
        forall i | 0 <= i < |init|
          ensures init[i] != last
        {
          assert s[i] == init[i];
        }
      }
      if last != l {
        RemoveListenerShrinks(init, l);
        var r := RemoveListener(init, l);
        if Distinct(s) {
          forall i, j | 0 <= i < j < |r + [last]|
            ensures (r + [last])[i] != (r + [last])[j]
          {
            if j == |r| {
              assert (r + [last])[i] == r[i] && r[i] in init;
            }
          }
        }
      }
    }
  }

  /** Only the most recent registration of `l` goes: the registrations made after it stay, in order. */
  lemma {:induction false} RemoveListenerAfter(s: seq<Listener>, l: Listener, t: seq<Listener>)
    requires l !in t
    ensures RemoveListener(s + [l] + t, l) == s + t
  {
    if t == [] {
      assert s + [l] + t == s + [l];
    } else {
      var init, last := t[..|t| - 1], t[|t| - 1];
      assert t == init + [last];
      assert s + [l] + t == (s + [l] + init) + [last];
      RemoveListenerAfter(s, l, init);
      assert s + t == (s + init) + [last];
    }
  }

  /** The listeners the adapter handlers add at construction. */
  function AdapterListeners(): seq<Listener>
  {
    [DISCOVER_LISTENER, STATE_CHANGE_LISTENER]
  }

  /** No listener is registered twice. */
  predicate Distinct(s: seq<Listener>)
  {
    forall i, j | 0 <= i < j < |s| :: s[i] != s[j]
  }

  /** Whether holding peripheral `p` and characteristics `battery` and `knob` justifies listener `l`. */
  predicate Justifies(l: Listener, p: Option<Peripheral>, battery: Option<Characteristic>, knob: Option<Characteristic>)
  {
    match l.handler
    case DiscoverHandler => l.target == Adapter
    case StateChangeHandler => l.target == Adapter
    case ConnectHandler => p.Some? && l.target == OnPeripheral(p.value)
    case DisconnectHandler => p.Some? && l.target == OnPeripheral(p.value)
    case BatteryReadHandler => battery.Some? && l.target == OnChar(battery.value)
    case KnobReadHandler => knob.Some? && l.target == OnChar(knob.value)
  }

  /** Every registered listener is registered once, and a held handle justifies it. */
  predicate Within(s: seq<Listener>, p: Option<Peripheral>, battery: Option<Characteristic>, knob: Option<Characteristic>)
  {
    Distinct(s) && forall l | l in s :: Justifies(l, p, battery, knob)
  }

  /** The registrations left once a held peripheral's two listeners are removed. */
  function WithoutPeripheral(s: seq<Listener>, p: Option<Peripheral>): seq<Listener>
  {
    if p.None? then s
    else RemoveListener(RemoveListener(s, ConnectListener(p.value)), DisconnectListener(p.value))
  }

  /** The registrations left once a bound knob characteristic's listener is removed. */
  function WithoutKnob(s: seq<Listener>, knob: Option<Characteristic>): seq<Listener>
  {
    if knob.None? then s else RemoveListener(s, KnobListener(knob.value))
  }

  /** The registrations left once a bound battery characteristic's listener is removed. */
  function WithoutBattery(s: seq<Listener>, battery: Option<Characteristic>): seq<Listener>
  {
    if battery.None? then s else RemoveListener(s, BatteryListener(battery.value))
  }

  /** The registrations left after teardown, in teardown's order: peripheral, knob, battery. */
  function WithoutHandles(s: seq<Listener>, p: Option<Peripheral>, knob: Option<Characteristic>, battery: Option<Characteristic>): seq<Listener>
  {
    WithoutBattery(WithoutKnob(WithoutPeripheral(s, p), knob), battery)
  }

  /** The registrations left once `destroy` has removed the adapter listeners. */
  function WithoutAdapter(s: seq<Listener>): seq<Listener>
  {
    RemoveListener(RemoveListener(s, STATE_CHANGE_LISTENER), DISCOVER_LISTENER)
  }

  /** Registering one more justified listener that is not yet registered keeps the registry justified. */
  lemma RegisterStaysJustified(s: seq<Listener>, l: Listener, p: Option<Peripheral>, battery: Option<Characteristic>, knob: Option<Characteristic>)
    requires Within(s, p, battery, knob)
    requires l !in s && Justifies(l, p, battery, knob)
    ensures Within(s + [l], p, battery, knob)
  {
    forall i, j | 0 <= i < j < |s + [l]|
      ensures (s + [l])[i] != (s + [l])[j]
    {
      if j == |s| {
        assert (s + [l])[i] == s[i];
      }
    }
  }

  /** Registering a newly held peripheral's two listeners keeps the registrations justified. */
  lemma DiscoverStaysJustified(s: seq<Listener>, p: Peripheral, battery: Option<Characteristic>, knob: Option<Characteristic>)
    requires Within(s, None, battery, knob)
    ensures Within(s + [ConnectListener(p)] + [DisconnectListener(p)], Some(p), battery, knob)
  {
    forall l | l in s
      ensures Justifies(l, Some(p), battery, knob) && l != ConnectListener(p) && l != DisconnectListener(p)
    {
      assert Justifies(l, None, battery, knob);
    }
    RegisterStaysJustified(s, ConnectListener(p), Some(p), battery, knob);
    RegisterStaysJustified(s + [ConnectListener(p)], DisconnectListener(p), Some(p), battery, knob);
  }

  /** Subscribing freshly bound battery and knob characteristics keeps the registrations justified. */
  lemma SubscribeStaysJustified(s: seq<Listener>, p: Option<Peripheral>, battery: Option<Characteristic>, knob: Option<Characteristic>)
    requires Within(s, p, None, None)
    ensures Within(s + SubscribeListeners(battery, knob), p, battery, knob)
  {
    forall l | l in s
      ensures Justifies(l, p, battery, knob)
      ensures !l.handler.BatteryReadHandler? && !l.handler.KnobReadHandler?
    {
      assert Justifies(l, p, None, None);
    }
    if battery.Some? {
      var b := BatteryListener(battery.value);
      RegisterStaysJustified(s, b, p, battery, knob);
      if knob.Some? {
        RegisterStaysJustified(s + [b], KnobListener(knob.value), p, battery, knob);
        AppendAssoc(s, [b], [KnobListener(knob.value)]);
      } else {
        assert s + SubscribeListeners(battery, knob) == s + [b];
      }
    } else {
      assert s + SubscribeListeners(battery, knob) == s;
    }
  }

  /** Dropping a held peripheral's two listeners keeps the rest justified without it. */
  lemma DropPeripheral(s: seq<Listener>, p: Option<Peripheral>, battery: Option<Characteristic>, knob: Option<Characteristic>)
    requires Within(s, p, battery, knob)
    ensures Within(WithoutPeripheral(s, p), None, battery, knob)
  {
    if p.Some? {
      var c, d := ConnectListener(p.value), DisconnectListener(p.value);
      RemoveListenerShrinks(s, c);
      RemoveListenerShrinks(RemoveListener(s, c), d);
      var r := WithoutPeripheral(s, p);
      forall l | l in r
        ensures Justifies(l, None, battery, knob)
      {
        assert l in s && l != c && l != d;
        assert Justifies(l, p, battery, knob);
      }
    }
  }

  /** Dropping a bound knob characteristic's listener keeps the rest justified without it. */
  lemma DropKnob(s: seq<Listener>, battery: Option<Characteristic>, knob: Option<Characteristic>)
    requires Within(s, None, battery, knob)
    ensures Within(WithoutKnob(s, knob), None, battery, None)
  {
    if knob.Some? {
      RemoveListenerShrinks(s, KnobListener(knob.value));
      forall l | l in WithoutKnob(s, knob)
        ensures Justifies(l, None, battery, None)
      {
        assert l in s && l != KnobListener(knob.value);
        assert Justifies(l, None, battery, knob);
      }
    }
  }

  /** Dropping a bound battery characteristic's listener leaves only adapter listeners. */
  lemma DropBattery(s: seq<Listener>, battery: Option<Characteristic>)
    requires Within(s, None, battery, None)
    ensures Within(WithoutBattery(s, battery), None, None, None)
  {
    if battery.Some? {
      RemoveListenerShrinks(s, BatteryListener(battery.value));
      forall l | l in WithoutBattery(s, battery)
        ensures Justifies(l, None, None, None)
      {
        assert l in s && l != BatteryListener(battery.value);
        assert Justifies(l, None, battery, None);
      }
    }
  }

  /** Dropping the handles' listeners leaves only the adapter's, each once. */
  lemma TeardownLeavesAdapter(s: seq<Listener>, p: Option<Peripheral>, battery: Option<Characteristic>, knob: Option<Characteristic>)
    requires Within(s, p, battery, knob)
    ensures Within(WithoutHandles(s, p, knob, battery), None, None, None)
  {
    DropPeripheral(s, p, battery, knob);
    DropKnob(WithoutPeripheral(s, p), battery, knob);
    DropBattery(WithoutKnob(WithoutPeripheral(s, p), knob), battery);
  }

  /** With no handle held, every justified registration is on the adapter. */
  lemma OnlyAdapter(s: seq<Listener>)
    requires Within(s, None, None, None)
    ensures forall l | l in s :: l.target == Adapter
  {
    forall l | l in s
      ensures l.target == Adapter
    {
      assert Justifies(l, None, None, None);
    }
  }

  /** Dropping the adapter listeners keeps the rest justified and leaves none on the adapter. */
  lemma LeaveAdapter(s: seq<Listener>, p: Option<Peripheral>, battery: Option<Characteristic>, knob: Option<Characteristic>)
    requires Within(s, p, battery, knob)
    ensures Within(WithoutAdapter(s), p, battery, knob)
    ensures forall l | l in WithoutAdapter(s) :: l.target != Adapter
  {
    RemoveListenerShrinks(s, STATE_CHANGE_LISTENER);
    RemoveListenerShrinks(RemoveListener(s, STATE_CHANGE_LISTENER), DISCOVER_LISTENER);
    forall l | l in WithoutAdapter(s)
      ensures Justifies(l, p, battery, knob) && l.target != Adapter
    {
      assert l in s && l != STATE_CHANGE_LISTENER && l != DISCOVER_LISTENER;
      assert Justifies(l, p, battery, knob);
    }
  }

  /** With no handle held, dropping the adapter listeners leaves nothing registered at all. */
  lemma LeaveAdapterEmpty(s: seq<Listener>)
    requires Within(s, None, None, None)
    ensures WithoutAdapter(s) == []
  {
    LeaveAdapter(s, None, None, None);
    OnlyAdapter(WithoutAdapter(s));
    forall l
      ensures multiset(WithoutAdapter(s))[l] == 0
    {
      assert l !in WithoutAdapter(s);
    }
    assert multiset(WithoutAdapter(s)) == multiset{};
  }

  /**
   * The last characteristic of `chars` with the given UUID, or `current`
   * when there is none: the handle a pass over `chars` leaves bound.
   */
  function LastWithUuid(chars: seq<Characteristic>, uuid: string, current: Option<Characteristic>): (r: Option<Characteristic>)
    ensures r == current || (r.Some? && r.value in chars && r.value.uuid == uuid)
  {
    if chars == [] then current
    else if chars[|chars| - 1].uuid == uuid then Some(chars[|chars| - 1])
    else LastWithUuid(chars[..|chars| - 1], uuid, current)
  }

  /** A pass over `chars` in which no characteristic has the UUID keeps `current`. */
  lemma {:induction false} LastWithUuidKeeps(chars: seq<Characteristic>, uuid: string, current: Option<Characteristic>)
    requires forall j | 0 <= j < |chars| :: chars[j].uuid != uuid
    ensures LastWithUuid(chars, uuid, current) == current
  {
    if chars != [] {
      var init := chars[..|chars| - 1];
      assert forall j | 0 <= j < |init| :: init[j] == chars[j];
      LastWithUuidKeeps(init, uuid, current);
    }
  }

  /** A pass over `chars` binds the characteristic at `j` when it has the UUID and no later one does. */
  lemma {:induction false} LastWithUuidFinds(chars: seq<Characteristic>, uuid: string, current: Option<Characteristic>, j: nat)
    requires j < |chars| && chars[j].uuid == uuid
    requires forall k | j < k < |chars| :: chars[k].uuid != uuid
    ensures LastWithUuid(chars, uuid, current) == Some(chars[j])
  {
    if j < |chars| - 1 {
      var init := chars[..|chars| - 1];
      assert forall k | 0 <= k < |init| :: init[k] == chars[k];
      LastWithUuidFinds(init, uuid, current, j);
    }
  }

  /** The driver for the knob with one hardware address. */
  class PowerMateBleDevice {
    /** The device address, lower-cased once at construction. */
    const mac: string
    var peripheral: Option<Peripheral>
    var service: Option<Service>
    var batteryChar: Option<Characteristic>
    var knobChar: Option<Characteristic>
    var ledChar: Option<Characteristic>
    /** Everything done to the environment and emitted to the consumer so far. */
    var log: seq<Action>
    /** The driver's listeners currently registered in the environment; one added twice counts twice. */
    var listeners: seq<Listener>

    /** No stale or duplicated registration: every listener still registered belongs to a held handle. */
    predicate Tidy()
      reads this`listeners, this`peripheral, this`batteryChar, this`knobChar
      ensures Tidy() ==> Distinct(listeners)
    {
      Within(listeners, peripheral, batteryChar, knobChar)
    }

    /** In a tidy registry every listener sits on the adapter or on a handle the driver still holds. */
    lemma TidyTargets()
      requires Tidy()
      ensures forall l | l in listeners ::
                || l.target == Adapter
                || (peripheral.Some? && l.target == OnPeripheral(peripheral.value))
                || (batteryChar.Some? && l.target == OnChar(batteryChar.value))
                || (knobChar.Some? && l.target == OnChar(knobChar.value))
    {
      forall l | l in listeners
        ensures || l.target == Adapter
                || (peripheral.Some? && l.target == OnPeripheral(peripheral.value))
                || (batteryChar.Some? && l.target == OnChar(batteryChar.value))
                || (knobChar.Some? && l.target == OnChar(knobChar.value))
      {
        assert Justifies(l, peripheral, batteryChar, knobChar);
      }
    }

    /** No peripheral, service or characteristic is held. */
    predicate Unbound()
      reads this`peripheral, this`service, this`batteryChar, this`knobChar, this`ledChar
    {
      peripheral.None? && service.None? && batteryChar.None? && knobChar.None? && ledChar.None?
    }

    /** `new PowerMateBleDevice(mac)`: register on the adapter, then react to its current state. */
    constructor (macAddress: string, adapterState: string)
      ensures mac == Lower(macAddress)
      ensures Unbound()
      ensures listeners == AdapterListeners()
      ensures log == [Attach(DISCOVER_LISTENER), Attach(STATE_CHANGE_LISTENER)] + ScanActions(adapterState, false)
      ensures Tidy()
    {
      mac := Lower(macAddress);
      peripheral, service := None, None;
      batteryChar, knobChar, ledChar := None, None, None;
      log, listeners := [], [];
      new;
      Listen(DISCOVER_LISTENER);
      Listen(STATE_CHANGE_LISTENER);
      OnStateChange(adapterState);
    }

    /** Do one thing to the environment that registers nothing, or emit one event. */
    method Perform(a: Action)
      requires !a.Attach? && !a.Detach?
      modifies this`log
      ensures log == old(log) + [a]
    {
      log := log + [a];
    }

    /** `on(event, handler)`: register one more listener. */
    method Listen(l: Listener)
      modifies this`log, this`listeners
      ensures log == old(log) + [Attach(l)]
      ensures listeners == old(listeners) + [l]
    {
      log := log + [Attach(l)];
      listeners := listeners + [l];
    }

    /** `removeListener(event, handler)`: drop one registration of the listener, if there is one. */
    method Unlisten(l: Listener)
      modifies this`log, this`listeners
      ensures log == old(log) + [Detach(l)]
      ensures listeners == RemoveListener(old(listeners), l)
    {
      log := log + [Detach(l)];
      listeners := RemoveListener(listeners, l);
    }

    /** `onStateChange`: start a filtered scan when the adapter is powered on and no peripheral is held. */
    method OnStateChange(state: string)
      modifies this`log
      ensures log == old(log) + ScanActions(state, peripheral.Some?)
    {
      if state == POWERED_ON && peripheral.None? {
        Perform(Emit(StatusIs(Scanning)));
        Perform(StartScan([SERVICE_UUID], false));
      }
    }

    /** `onDiscover`: on an address match, hold the peripheral, listen to it and connect. */
    method OnDiscover(p: Peripheral)
      modifies this`peripheral, this`log, this`listeners
      ensures mac != Lower(p.address) ==>
                peripheral == old(peripheral) && log == old(log) && listeners == old(listeners)
      ensures mac == Lower(p.address) ==>
                && peripheral == Some(p)
                && listeners == old(listeners) + [ConnectListener(p), DisconnectListener(p)]
                && log == old(log) + [Attach(ConnectListener(p)), Attach(DisconnectListener(p)), Connect(p)]
      ensures old(Tidy()) && old(peripheral).None? ==> Tidy()
    {
      if mac != Lower(p.address) {
        return;
      }
      ghost var wasTidy := Tidy() && peripheral.None?;
      peripheral := Some(p);
      Listen(ConnectListener(p));
      Listen(DisconnectListener(p));
      Perform(Connect(p));
      if wasTidy {
        DiscoverStaysJustified(old(listeners), p, batteryChar, knobChar);
      }
    }

    /** `onConnect`: request discovery of the service and its three characteristics, then report "connected". */
    method OnConnect() returns (outcome: Outcome)
      modifies this`log
      ensures peripheral.None? ==> outcome == Threw(TypeError) && log == old(log)
      ensures peripheral.Some? ==>
                && outcome == Completed
                && log == old(log) + [DiscoverSome(peripheral.value, [SERVICE_UUID],
                                                   [BATTERY_CHAR_UUID, KNOB_CHAR_UUID, LED_CHAR_UUID]),
                                      Emit(StatusIs(Connected))]
    {
      if peripheral.None? {
        // the discovery request is made on an undefined peripheral
        return Threw(TypeError);
      }
      Perform(DiscoverSome(peripheral.value, [SERVICE_UUID], [BATTERY_CHAR_UUID, KNOB_CHAR_UUID, LED_CHAR_UUID]));
      Perform(Emit(StatusIs(Connected)));
      outcome := Completed;
    }

    /**
     * The discovery callback: store the first service, bind the characteristics
     * by UUID, then subscribe to battery and knob notifications. An undefined
     * `services` or `chars`, or a missing battery or knob characteristic, throws
     * a TypeError at the point the source reaches it.
     */
    method OnServicesDiscovered(services: Option<seq<Service>>, chars: Option<seq<Characteristic>>)
      returns (outcome: Outcome)
      modifies this`service, this`batteryChar, this`knobChar, this`ledChar, this`log, this`listeners
      ensures services.None? ==>
                && outcome == Threw(TypeError) && service == old(service)
                && log == old(log) && listeners == old(listeners)
                && batteryChar == old(batteryChar) && knobChar == old(knobChar) && ledChar == old(ledChar)
      ensures services.Some? ==>
                service == (if |services.value| == 0 then None else Some(services.value[0]))
      ensures services.Some? && chars.None? ==>
                && outcome == Threw(TypeError) && log == old(log) && listeners == old(listeners)
                && batteryChar == old(batteryChar) && knobChar == old(knobChar) && ledChar == old(ledChar)
      ensures services.Some? && chars.Some? ==>
                && batteryChar == LastWithUuid(chars.value, BATTERY_CHAR_UUID, old(batteryChar))
                && knobChar == LastWithUuid(chars.value, KNOB_CHAR_UUID, old(knobChar))
                && ledChar == LastWithUuid(chars.value, LED_CHAR_UUID, old(ledChar))
                && log == old(log) + SubscribeActions(batteryChar, knobChar)
                && listeners == old(listeners) + SubscribeListeners(batteryChar, knobChar)
                && outcome == (if batteryChar.Some? && knobChar.Some? then Completed else Threw(TypeError))
      ensures old(Tidy()) && old(batteryChar).None? && old(knobChar).None? ==> Tidy()
    {
      if services.None? {
        // `services[0]` on undefined
        return Threw(TypeError);
      }
      service := if |services.value| == 0 then None else Some(services.value[0]);
      if chars.None? {
        // `chars.length` on undefined
        return Threw(TypeError);
      }
      ghost var wasTidy := Tidy() && batteryChar.None? && knobChar.None?;
      BindCharacteristics(chars.value);
      if wasTidy {
        SubscribeStaysJustified(listeners, peripheral, batteryChar, knobChar);
      }
      outcome := Subscribe();
    }

    /** The end of the discovery callback: notify and listen on the battery, then the knob. */
    method Subscribe() returns (outcome: Outcome)
      modifies this`log, this`listeners
      ensures log == old(log) + SubscribeActions(batteryChar, knobChar)
      ensures listeners == old(listeners) + SubscribeListeners(batteryChar, knobChar)
      ensures outcome == (if batteryChar.Some? && knobChar.Some? then Completed else Threw(TypeError))
    {
      if batteryChar.None? {
        // `notify` on an undefined battery characteristic
        return Threw(TypeError);
      }
      Perform(Notify(batteryChar.value, true));
      Listen(BatteryListener(batteryChar.value));
      if knobChar.None? {
        // `notify` on an undefined knob characteristic
        return Threw(TypeError);
      }
      Perform(Notify(knobChar.value, true));
      Listen(KnobListener(knobChar.value));
      Regroup(old(log), [Notify(batteryChar.value, true), Attach(BatteryListener(batteryChar.value))],
              [Notify(knobChar.value, true)], [Attach(KnobListener(knobChar.value))]);
      AppendAssoc(old(listeners), [BatteryListener(batteryChar.value)], [KnobListener(knobChar.value)]);
      outcome := Completed;
    }

    /** The loop of the discovery callback: bind each characteristic by its UUID, ignore other UUIDs. */
    method BindCharacteristics(cs: seq<Characteristic>)
      modifies this`batteryChar, this`knobChar, this`ledChar
      ensures batteryChar == LastWithUuid(cs, BATTERY_CHAR_UUID, old(batteryChar))
      ensures knobChar == LastWithUuid(cs, KNOB_CHAR_UUID, old(knobChar))
      ensures ledChar == LastWithUuid(cs, LED_CHAR_UUID, old(ledChar))
    {
      CharUuidsDistinct();
      var i := 0;
      while i < |cs|
        invariant 0 <= i <= |cs|
        invariant batteryChar == LastWithUuid(cs[..i], BATTERY_CHAR_UUID, old(batteryChar))
        invariant knobChar == LastWithUuid(cs[..i], KNOB_CHAR_UUID, old(knobChar))
        invariant ledChar == LastWithUuid(cs[..i], LED_CHAR_UUID, old(ledChar))
      {
        var c := cs[i];
        if c.uuid == BATTERY_CHAR_UUID {
          batteryChar := Some(c);
        } else if c.uuid == KNOB_CHAR_UUID {
          knobChar := Some(c);
        } else if c.uuid == LED_CHAR_UUID {
          ledChar := Some(c);
        }
        assert cs[..i + 1][..i] == cs[..i];
        i := i + 1;
      }
      assert cs[..i] == cs;
    }

    /**
     * `onDisconnect`: unregister the peripheral and characteristic listeners and
     * drop every handle; unless closing, report "disconnected" and rescan.
     */
    method OnDisconnect(closing: bool, adapterState: string)
      modifies this`peripheral, this`service, this`batteryChar, this`knobChar, this`ledChar, this`log, this`listeners
      ensures Unbound()
      ensures listeners == WithoutHandles(old(listeners), old(peripheral), old(knobChar), old(batteryChar))
      ensures log == old(log) + TeardownActions(old(peripheral), old(knobChar), old(batteryChar))
                     + (if closing then [] else [Emit(StatusIs(Disconnected))] + ScanActions(adapterState, false))
      ensures old(Tidy()) ==> Tidy() && forall l | l in listeners :: l.target == Adapter
    {
      ghost var wasTidy := Tidy();
      RemoveHandlers();
      peripheral, service := None, None;
      batteryChar, knobChar, ledChar := None, None, None;
      if wasTidy {
        TeardownLeavesAdapter(old(listeners), old(peripheral), old(batteryChar), old(knobChar));
        OnlyAdapter(listeners);
      }
      ghost var tornDown := log;
      if !closing {
        Perform(Emit(StatusIs(Disconnected)));
        OnStateChange(adapterState);
        AppendAssoc(tornDown, [Emit(StatusIs(Disconnected))], ScanActions(adapterState, false));
      }
    }

    /** The first part of `onDisconnect`: unregister from the peripheral, then the knob, then the battery. */
    method RemoveHandlers()
      modifies this`log, this`listeners
      ensures listeners == WithoutHandles(old(listeners), peripheral, knobChar, batteryChar)
      ensures log == old(log) + TeardownActions(peripheral, knobChar, batteryChar)
    {
      if peripheral.Some? {
        Unlisten(ConnectListener(peripheral.value));
        Unlisten(DisconnectListener(peripheral.value));
      }
      ghost var afterPeripheral := log;
      if knobChar.Some? {
        Unlisten(KnobListener(knobChar.value));
      }
      ghost var afterKnob := log;
      if batteryChar.Some? {
        Unlisten(BatteryListener(batteryChar.value));
      }
      assert afterPeripheral == old(log) + PeripheralDetaches(peripheral);
      assert afterKnob == afterPeripheral + ReadDetaches(knobChar, KnobReadHandler);
      assert log == afterKnob + ReadDetaches(batteryChar, BatteryReadHandler);
      Regroup(old(log), PeripheralDetaches(peripheral), ReadDetaches(knobChar, KnobReadHandler),
              ReadDetaches(batteryChar, BatteryReadHandler));
    }

    /** `destroy`: disconnect any held peripheral without rescanning, stop scanning, leave the adapter. */
    method Destroy()
      modifies this`peripheral, this`service, this`batteryChar, this`knobChar, this`ledChar, this`log, this`listeners
      ensures old(peripheral).Some? ==>
                && Unbound()
                && listeners == WithoutAdapter(WithoutHandles(old(listeners), old(peripheral), old(knobChar), old(batteryChar)))
                && log == old(log) + [Disconnect(old(peripheral).value)]
                          + TeardownActions(old(peripheral), old(knobChar), old(batteryChar))
                          + [StopScan, Detach(STATE_CHANGE_LISTENER), Detach(DISCOVER_LISTENER)]
      ensures old(peripheral).None? ==>
                && peripheral.None? && service == old(service) && batteryChar == old(batteryChar)
                && knobChar == old(knobChar) && ledChar == old(ledChar)
                && listeners == WithoutAdapter(old(listeners))
                && log == old(log) + [StopScan, Detach(STATE_CHANGE_LISTENER), Detach(DISCOVER_LISTENER)]
      ensures old(Tidy()) ==> Tidy() && forall l | l in listeners :: l.target != Adapter
      ensures old(Tidy()) && old(peripheral).Some? ==> listeners == []
    {
      ghost var wasTidy := Tidy();
      if peripheral.Some? {
        Perform(Disconnect(peripheral.value));
        OnDisconnect(true, "");
      }
      ghost var beforeLeaving := listeners;
      LeaveAdapterListeners();
      if wasTidy {
        LeaveAdapter(beforeLeaving, peripheral, batteryChar, knobChar);
        if old(peripheral).Some? {
          LeaveAdapterEmpty(beforeLeaving);
        }
      }
    }

    /** The last part of `destroy`: stop scanning, then unregister from the adapter. */
    method LeaveAdapterListeners()
      modifies this`log, this`listeners
      ensures listeners == WithoutAdapter(old(listeners))
      ensures log == old(log) + [StopScan, Detach(STATE_CHANGE_LISTENER), Detach(DISCOVER_LISTENER)]
    {
      Perform(StopScan);
      Unlisten(STATE_CHANGE_LISTENER);
      Unlisten(DISCOVER_LISTENER);
      Regroup(old(log), [StopScan], [Detach(STATE_CHANGE_LISTENER)], [Detach(DISCOVER_LISTENER)]);
    }

    /** `setLedBrightness`: one byte, written without response, only while the LED is bound. */
    method SetLedBrightness(level: int)
      modifies this`log
      ensures ledChar.None? ==> log == old(log)
      ensures ledChar.Some? ==> log == old(log) + [Write(ledChar.value, [LedByte(level)], true)]
    {
      if ledChar.None? {
        return;
      }
      Perform(Write(ledChar.value, [LedByte(level)], true));
    }

    /** `onBatteryRead`: emit the first byte as the battery level. */
    method OnBatteryRead(data: seq<byte>) returns (outcome: Outcome)
      modifies this`log
      ensures |data| == 0 ==> outcome == Threw(RangeError) && log == old(log)
      ensures |data| > 0 ==> outcome == Completed && log == old(log) + [Emit(BatteryLevel(data[0]))]
    {
      var value := ReadUInt8(data);
      if value.None? {
        return Threw(RangeError);
      }
      Perform(Emit(BatteryLevel(value.value)));
      outcome := Completed;
    }

    /** `onKnobRead`: emit the event the first byte decodes to, if any. */
    method OnKnobRead(data: seq<byte>) returns (outcome: Outcome)
      modifies this`log
      ensures |data| == 0 ==> outcome == Threw(RangeError) && log == old(log)
      ensures |data| > 0 ==>
                && outcome == Completed
                && log == old(log) + (match DecodeKnob(data[0])
                                      case None => []
                                      case Some(e) => [Emit(Knob(e))])
    {
      var raw := ReadUInt8(data);
      if raw.None? {
        return Threw(RangeError);
      }
      outcome := Completed;
      match DecodeKnob(raw.value)
      case None =>
      case Some(e) =>
        Perform(Emit(Knob(e)));
    }
  }
}
