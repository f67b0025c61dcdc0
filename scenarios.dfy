/**
 * Whole sessions of the driver: a fresh device is built and the Bluetooth
 * stack's callbacks are delivered in the order the stack delivers them.
 * Each session method states what the driver does over the session.
 */
module Scenarios {
  import opened Results
  import Text
  import opened Wire
  import opened Device

  /** A knob whose advertised address matches `mac` up to case, with its three characteristics. */
  predicate Matching(mac: string, p: Peripheral, battery: Characteristic, knob: Characteristic, led: Characteristic)
  {
    && Text.Lower(p.address) == Text.Lower(mac)
    && battery.uuid == BATTERY_CHAR_UUID
    && knob.uuid == KNOB_CHAR_UUID
    && led.uuid == LED_CHAR_UUID
  }

  /** What construction on a powered-on adapter does: register on the adapter, report "scanning", scan. */
  function ScanTrace(): seq<Action>
  {
    [Attach(DISCOVER_LISTENER), Attach(STATE_CHANGE_LISTENER), Emit(StatusIs(Scanning)), StartScan([SERVICE_UUID], false)]
  }

  /** What `onDiscover` does for the matching knob: register on it and connect. */
  function DiscoverTrace(p: Peripheral): seq<Action>
  {
    [Attach(ConnectListener(p)), Attach(DisconnectListener(p)), Connect(p)]
  }

  /** What `onConnect` does: request discovery of the service and the three characteristics, report "connected". */
  function LinkTrace(p: Peripheral): seq<Action>
  {
    [DiscoverSome(p, [SERVICE_UUID], [BATTERY_CHAR_UUID, KNOB_CHAR_UUID, LED_CHAR_UUID]), Emit(StatusIs(Connected))]
  }

  /** A whole connection: scan, discover, link, then the discovery callback's subscriptions. */
  function ConnectTrace(p: Peripheral, battery: Characteristic, knob: Characteristic): seq<Action>
  {
    ScanTrace() + DiscoverTrace(p) + LinkTrace(p) + SubscribeActions(Some(battery), Some(knob))
  }

  /** What a connected session has registered: the adapter's listeners, the peripheral's, then the two read listeners. */
  function ConnectListeners(p: Peripheral, battery: Characteristic, knob: Characteristic): seq<Listener>
  {
    AdapterListeners() + [ConnectListener(p), DisconnectListener(p)] + SubscribeListeners(Some(battery), Some(knob))
  }

  /** The events a trace reports to the consumer, in order. */
  function Emitted(trace: seq<Action>): seq<Event>
  {
    if trace == [] then []
    else (if trace[0].Emit? then [trace[0].event] else []) + Emitted(trace[1..])
  }

  /** The events of a concatenation are those of its parts. */
  lemma {:induction false} EmittedAppend(a: seq<Action>, b: seq<Action>)
    ensures Emitted(a + b) == Emitted(a) + Emitted(b)
  {
    if a == [] {
      assert a + b == b;
    } else {
      assert (a + b)[0] == a[0];
      assert (a + b)[1..] == a[1..] + b;
      EmittedAppend(a[1..], b);
    }
  }

  /** The events of one action followed by more. */
  lemma EmittedCons(a: Action, t: seq<Action>)
    ensures Emitted([a] + t) == (if a.Emit? then [a.event] else []) + Emitted(t)
  {
    assert ([a] + t)[0] == a && ([a] + t)[1..] == t;
  }

  /** Scanning reports "scanning". */
  lemma ScanEmits()
    ensures Emitted(ScanTrace()) == [StatusIs(Scanning)]
  {
    var x0, x1, x2, x3 := Attach(DISCOVER_LISTENER), Attach(STATE_CHANGE_LISTENER), Emit(StatusIs(Scanning)), StartScan([SERVICE_UUID], false);
    assert ScanTrace() == [x0] + ([x1] + ([x2] + [x3]));
    EmittedCons(x3, []);
    EmittedCons(x2, [x3]);
    EmittedCons(x1, [x2] + [x3]);
    EmittedCons(x0, [x1] + ([x2] + [x3]));
  }

  /** Discovering the knob reports nothing. */
  lemma DiscoverEmits(p: Peripheral)
    ensures Emitted(DiscoverTrace(p)) == []
  {
    var x0, x1, x2 := Attach(ConnectListener(p)), Attach(DisconnectListener(p)), Connect(p);
    assert DiscoverTrace(p) == [x0] + ([x1] + [x2]);
    EmittedCons(x2, []);
    EmittedCons(x1, [x2]);
    EmittedCons(x0, [x1] + [x2]);
  }

  /** Connecting reports "connected". */
  lemma LinkEmits(p: Peripheral)
    ensures Emitted(LinkTrace(p)) == [StatusIs(Connected)]
  {
    var x0, x1 := DiscoverSome(p, [SERVICE_UUID], [BATTERY_CHAR_UUID, KNOB_CHAR_UUID, LED_CHAR_UUID]), Emit(StatusIs(Connected));
    assert LinkTrace(p) == [x0] + [x1];
    EmittedCons(x1, []);
    EmittedCons(x0, [x1]);
  }

  /** Subscribing reports nothing. */
  lemma SubscribeEmits(battery: Characteristic, knob: Characteristic)
    ensures Emitted(SubscribeActions(Some(battery), Some(knob))) == []
  {
    var x0, x1, x2, x3 := Notify(battery, true), Attach(BatteryListener(battery)), Notify(knob, true), Attach(KnobListener(knob));
    assert SubscribeActions(Some(battery), Some(knob)) == [x0] + ([x1] + ([x2] + [x3]));
    EmittedCons(x3, []);
    assert Emitted([x3]) == [];
    EmittedCons(x2, [x3]);
    assert Emitted([x2] + [x3]) == [];
    EmittedCons(x1, [x2] + [x3]);
    assert Emitted([x1] + ([x2] + [x3])) == [];
    EmittedCons(x0, [x1] + ([x2] + [x3]));
  }

  /** A connection reports "scanning" then "connected" and nothing else. */
  lemma ConnectTraceEmits(p: Peripheral, battery: Characteristic, knob: Characteristic)
    ensures Emitted(ConnectTrace(p, battery, knob)) == [StatusIs(Scanning), StatusIs(Connected)]
  {
    var s, c, l, b := ScanTrace(), DiscoverTrace(p), LinkTrace(p), SubscribeActions(Some(battery), Some(knob));
    EmittedAppend(s + c + l, b);
    EmittedAppend(s + c, l);
    EmittedAppend(s, c);
    ScanEmits();
    DiscoverEmits(p);
    LinkEmits(p);
    SubscribeEmits(battery, knob);
  }

  /** A connection requests `connect` exactly once. */
  lemma ConnectTraceConnectsOnce(p: Peripheral, battery: Characteristic, knob: Characteristic)
    ensures multiset(ConnectTrace(p, battery, knob))[Connect(p)] == 1
  {
    var s, c, l, b := ScanTrace(), DiscoverTrace(p), LinkTrace(p), SubscribeActions(Some(battery), Some(knob));
    var x := Connect(p);
    assert multiset(s)[x] == 0 by { assert x !in s; }
    assert multiset(c)[x] == 1 by { assert c == [Attach(ConnectListener(p)), Attach(DisconnectListener(p))] + [x]; }
    assert multiset(l)[x] == 0 by { assert x !in l; }
    assert multiset(b)[x] == 0 by { assert x !in b; }
  }

  /** The discovery callback binds each characteristic by UUID when the stack lists the LED first. */
  lemma BindsLedFirst(battery: Characteristic, knob: Characteristic, led: Characteristic)
    requires battery.uuid == BATTERY_CHAR_UUID && knob.uuid == KNOB_CHAR_UUID && led.uuid == LED_CHAR_UUID
    ensures LastWithUuid([led, knob, battery], BATTERY_CHAR_UUID, None) == Some(battery)
    ensures LastWithUuid([led, knob, battery], KNOB_CHAR_UUID, None) == Some(knob)
    ensures LastWithUuid([led, knob, battery], LED_CHAR_UUID, None) == Some(led)
  {
    CharUuidsDistinct();
    var cs := [led, knob, battery];
    assert cs[..2] == [led, knob] && cs[..2][..1] == [led] && cs[..2][..1][..0] == [];
    assert LastWithUuid([led], LED_CHAR_UUID, None) == Some(led);
    assert LastWithUuid([led, knob], LED_CHAR_UUID, None) == Some(led);
    assert LastWithUuid([led, knob], KNOB_CHAR_UUID, None) == Some(knob);
  }

  /** The discovery callback binds each characteristic by UUID when the stack lists the LED last. */
  lemma BindsLedLast(battery: Characteristic, knob: Characteristic, led: Characteristic)
    requires battery.uuid == BATTERY_CHAR_UUID && knob.uuid == KNOB_CHAR_UUID && led.uuid == LED_CHAR_UUID
    ensures LastWithUuid([battery, knob, led], BATTERY_CHAR_UUID, None) == Some(battery)
    ensures LastWithUuid([battery, knob, led], KNOB_CHAR_UUID, None) == Some(knob)
    ensures LastWithUuid([battery, knob, led], LED_CHAR_UUID, None) == Some(led)
  {
    CharUuidsDistinct();
    var cs := [battery, knob, led];
    assert cs[..2] == [battery, knob] && cs[..2][..1] == [battery] && cs[..2][..1][..0] == [];
    assert LastWithUuid([battery], BATTERY_CHAR_UUID, None) == Some(battery);
    assert LastWithUuid([battery, knob], BATTERY_CHAR_UUID, None) == Some(battery);
    assert LastWithUuid([battery, knob], KNOB_CHAR_UUID, None) == Some(knob);
  }

  /** Build a device on a powered-on adapter: it registers on the adapter and starts scanning. */
  method ScanningDevice(mac: string) returns (d: PowerMateBleDevice)
    ensures fresh(d)
    ensures d.mac == Text.Lower(mac) && d.Unbound()
    ensures d.listeners == AdapterListeners()
    ensures d.log == ScanTrace()
  {
    d := new PowerMateBleDevice(mac, POWERED_ON);
  }

  /** Scan, discover the matching knob and connect to it. */
  method LinkedDevice(mac: string, p: Peripheral) returns (d: PowerMateBleDevice)
    requires Text.Lower(p.address) == Text.Lower(mac)
    ensures fresh(d)
    ensures d.peripheral == Some(p) && d.service.None?
    ensures d.batteryChar.None? && d.knobChar.None? && d.ledChar.None?
    ensures d.listeners == AdapterListeners() + [ConnectListener(p), DisconnectListener(p)]
    ensures d.log == ScanTrace() + DiscoverTrace(p) + LinkTrace(p)
  {
    d := ScanningDevice(mac);
    d.OnDiscover(p);
    var connected := d.OnConnect();
  }

  /** Scan, discover, connect, then deliver the discovery callback, listing the LED characteristic first. */
  method ConnectedDevice(mac: string, p: Peripheral, service: Service,
                         battery: Characteristic, knob: Characteristic, led: Characteristic)
    returns (d: PowerMateBleDevice)
    requires Matching(mac, p, battery, knob, led)
    ensures fresh(d)
    ensures d.peripheral == Some(p) && d.service == Some(service)
    ensures d.batteryChar == Some(battery) && d.knobChar == Some(knob) && d.ledChar == Some(led)
    ensures d.listeners == ConnectListeners(p, battery, knob)
    ensures d.log == ConnectTrace(p, battery, knob)
  {
    BindsLedFirst(battery, knob, led);
    d := LinkedDevice(mac, p);
    var bound := d.OnServicesDiscovered(Some([service]), Some([led, knob, battery]));
  }

  /** A matching knob is connected once: one `connect` request, "scanning" then "connected", both subscriptions. */
  method ConnectSession(mac: string, p: Peripheral, service: Service,
                        battery: Characteristic, knob: Characteristic, led: Characteristic)
    returns (trace: seq<Action>)
    requires Matching(mac, p, battery, knob, led)
    ensures trace == ConnectTrace(p, battery, knob)
    ensures multiset(trace)[Connect(p)] == 1
    ensures Emitted(trace) == [StatusIs(Scanning), StatusIs(Connected)]
  {
    var d := ConnectedDevice(mac, p, service, battery, knob, led);
    trace := d.log;
    ConnectTraceEmits(p, battery, knob);
    ConnectTraceConnectsOnce(p, battery, knob);
  }

  /** An advertisement from another address changes nothing. */
  method IgnoresOtherAddress(mac: string, p: Peripheral, state: string)
    returns (before: seq<Action>, after: seq<Action>, held: Option<Peripheral>)
    requires Text.Lower(p.address) != Text.Lower(mac)
    ensures after == before
    ensures held == None
  {
    var d := new PowerMateBleDevice(mac, state);
    before := d.log;
    d.OnDiscover(p);
    after, held := d.log, d.peripheral;
  }

  /** The adapter is not powered on at construction: no scan until it reports "poweredOn". */
  method ScanWaitsForPower(mac: string, state: string)
    returns (atStart: seq<Action>, afterPowerOn: seq<Action>)
    requires state != POWERED_ON
    ensures atStart == [Attach(DISCOVER_LISTENER), Attach(STATE_CHANGE_LISTENER)]
    ensures afterPowerOn == ScanTrace()
  {
    var d := new PowerMateBleDevice(mac, state);
    atStart := d.log;
    d.OnStateChange(POWERED_ON);
    afterPowerOn := d.log;
  }

  /** Knob and battery notifications: a press, a five-second hold, an unknown code that emits nothing, a level. */
  method NotificationSession(mac: string, p: Peripheral, service: Service,
                             battery: Characteristic, knob: Characteristic, led: Characteristic)
    returns (emitted: seq<Action>)
    requires Matching(mac, p, battery, knob, led)
    ensures emitted == [Emit(Knob(Press)), Emit(Knob(Hold(5))), Emit(BatteryLevel(80))]
  {
    var d := ConnectedDevice(mac, p, service, battery, knob, led);
    var start := d.log;
    var press := d.OnKnobRead([101]);
    var hold := d.OnKnobRead([118]);
    var unknown := d.OnKnobRead([7]);
    var level := d.OnBatteryRead([80, 1]);
    emitted := d.log[|start|..];
  }

  /** The LED is written only once it is bound: 50% becomes the byte 176. */
  method BrightnessSession(mac: string, p: Peripheral, service: Service,
                           battery: Characteristic, knob: Characteristic, led: Characteristic)
    returns (beforeConnect: seq<Action>, afterConnect: seq<Action>)
    requires Matching(mac, p, battery, knob, led)
    ensures beforeConnect == []
    ensures afterConnect == [Write(led, [176], true)]
  {
    var early := ScanningDevice(mac);
    var start := early.log;
    early.SetLedBrightness(50);
    beforeConnect := early.log[|start|..];
    LedByteSamples();
    var d := ConnectedDevice(mac, p, service, battery, knob, led);
    start := d.log;
    d.SetLedBrightness(50);
    afterConnect := d.log[|start|..];
  }

  /** What `onDisconnect` does when a powered-on session holds everything. */
  lemma DisconnectTail(p: Peripheral, battery: Characteristic, knob: Characteristic)
    ensures TeardownActions(Some(p), Some(knob), Some(battery))
            + ([Emit(StatusIs(Disconnected))] + ScanActions(POWERED_ON, false))
         == [Detach(ConnectListener(p)), Detach(DisconnectListener(p)),
             Detach(KnobListener(knob)), Detach(BatteryListener(battery)),
             Emit(StatusIs(Disconnected)), Emit(StatusIs(Scanning)), StartScan([SERVICE_UUID], false)]
  {
  }

  /** Leaving the adapter when only its own listeners are registered leaves none. */
  lemma AdapterLeavesNothing()
    ensures WithoutAdapter(AdapterListeners()) == []
  {
    RemoveListenerAfter([DISCOVER_LISTENER], STATE_CHANGE_LISTENER, []);
    RemoveListenerAfter([], DISCOVER_LISTENER, []);
  }

  /** Tearing down a connected session leaves exactly the adapter's registrations. */
  lemma DisconnectLeavesAdapter(p: Peripheral, battery: Characteristic, knob: Characteristic)
    ensures WithoutHandles(ConnectListeners(p, battery, knob), Some(p), Some(knob), Some(battery)) == AdapterListeners()
  {
    var a, c, dc, b, k := AdapterListeners(), ConnectListener(p), DisconnectListener(p),
                          BatteryListener(battery), KnobListener(knob);
    assert ConnectListeners(p, battery, knob) == a + [c] + [dc, b, k];
    RemoveListenerAfter(a, c, [dc, b, k]);
    assert a + [dc, b, k] == a + [dc] + [b, k];
    RemoveListenerAfter(a, dc, [b, k]);
    assert a + [b, k] == a + [b] + [k];
    RemoveListenerAfter(a + [b], k, []);
    RemoveListenerAfter(a, b, []);
  }

  /**
   * The knob drops the link: every handle listener is removed, "disconnected"
   * is reported once, and since the adapter is on, scanning restarts.
   */
  method DisconnectSession(mac: string, p: Peripheral, service: Service,
                           battery: Characteristic, knob: Characteristic, led: Characteristic)
    returns (tail: seq<Action>, remaining: seq<Listener>, unbound: bool)
    requires Matching(mac, p, battery, knob, led)
    ensures tail == [Detach(ConnectListener(p)), Detach(DisconnectListener(p)),
                     Detach(KnobListener(knob)), Detach(BatteryListener(battery)),
                     Emit(StatusIs(Disconnected)), Emit(StatusIs(Scanning)), StartScan([SERVICE_UUID], false)]
    ensures remaining == AdapterListeners()
    ensures unbound
  {
    var d := ConnectedDevice(mac, p, service, battery, knob, led);
    var start := d.log;
    d.OnDisconnect(false, POWERED_ON);
    AppendAssoc(start, TeardownActions(Some(p), Some(knob), Some(battery)),
                [Emit(StatusIs(Disconnected))] + ScanActions(POWERED_ON, false));
    DisconnectTail(p, battery, knob);
    DisconnectLeavesAdapter(p, battery, knob);
    tail := d.log[|start|..];
    remaining := d.listeners;
    unbound := d.peripheral.None? && d.service.None? && d.batteryChar.None? && d.knobChar.None? && d.ledChar.None?;
  }

  /** What `destroy` does when a session holds everything. */
  lemma DestroyTail(p: Peripheral, battery: Characteristic, knob: Characteristic)
    ensures [Disconnect(p)] + TeardownActions(Some(p), Some(knob), Some(battery))
            + [StopScan, Detach(STATE_CHANGE_LISTENER), Detach(DISCOVER_LISTENER)]
         == [Disconnect(p), Detach(ConnectListener(p)), Detach(DisconnectListener(p)),
             Detach(KnobListener(knob)), Detach(BatteryListener(battery)),
             StopScan, Detach(STATE_CHANGE_LISTENER), Detach(DISCOVER_LISTENER)]
  {
  }

  /** Destroying a connected driver disconnects without reporting or rescanning and leaves nothing registered. */
  method DestroySession(mac: string, p: Peripheral, service: Service,
                        battery: Characteristic, knob: Characteristic, led: Characteristic)
    returns (tail: seq<Action>, remaining: seq<Listener>)
    requires Matching(mac, p, battery, knob, led)
    ensures tail == [Disconnect(p), Detach(ConnectListener(p)), Detach(DisconnectListener(p)),
                     Detach(KnobListener(knob)), Detach(BatteryListener(battery)),
                     StopScan, Detach(STATE_CHANGE_LISTENER), Detach(DISCOVER_LISTENER)]
    ensures remaining == []
  {
    var d := ConnectedDevice(mac, p, service, battery, knob, led);
    var start := d.log;
    DisconnectLeavesAdapter(p, battery, knob);
    AdapterLeavesNothing();
    d.Destroy();
    Regroup(start, [Disconnect(p)], TeardownActions(Some(p), Some(knob), Some(battery)),
            [StopScan, Detach(STATE_CHANGE_LISTENER), Detach(DISCOVER_LISTENER)]);
    DestroyTail(p, battery, knob);
    tail := d.log[|start|..];
    remaining := d.listeners;
  }

  /**
   * Two matching advertisements before the first connects: the second
   * peripheral replaces the first, and a disconnect then removes only one
   * registration of each listener, so the first peripheral's stay registered
   * (even when both advertisements come from the same peripheral).
   */
  method RediscoverySession(mac: string, p1: Peripheral, p2: Peripheral)
    returns (remaining: seq<Listener>)
    requires Text.Lower(p1.address) == Text.Lower(mac) && Text.Lower(p2.address) == Text.Lower(mac)
    ensures remaining == AdapterListeners() + [ConnectListener(p1), DisconnectListener(p1)]
  {
    var d := ScanningDevice(mac);
    d.OnDiscover(p1);
    d.OnDiscover(p2);
    var first := AdapterListeners() + [ConnectListener(p1), DisconnectListener(p1)];
    RemoveListenerAfter(first, ConnectListener(p2), [DisconnectListener(p2)]);
    RemoveListenerAfter(first, DisconnectListener(p2), []);
    assert first + [ConnectListener(p2), DisconnectListener(p2)]
        == first + [ConnectListener(p2)] + [DisconnectListener(p2)];
    d.OnDisconnect(false, POWERED_ON);
    remaining := d.listeners;
  }

  /** Destroying a linked driver before discovery completes leaves nothing registered. */
  lemma LinkedLeavesNothing(p: Peripheral)
    ensures WithoutAdapter(WithoutHandles(AdapterListeners() + [ConnectListener(p), DisconnectListener(p)],
                                          Some(p), None, None)) == []
  {
    var a := AdapterListeners();
    assert a + [ConnectListener(p), DisconnectListener(p)] == a + [ConnectListener(p)] + [DisconnectListener(p)];
    RemoveListenerAfter(a, ConnectListener(p), [DisconnectListener(p)]);
    RemoveListenerAfter(a, DisconnectListener(p), []);
    AdapterLeavesNothing();
  }

  /**
   * The discovery callback arriving after `destroy` still binds the
   * characteristics and registers their read listeners.
   */
  method LateDiscoverySession(mac: string, p: Peripheral, service: Service,
                              battery: Characteristic, knob: Characteristic, led: Characteristic)
    returns (remaining: seq<Listener>, outcome: Outcome)
    requires Matching(mac, p, battery, knob, led)
    ensures remaining == [BatteryListener(battery), KnobListener(knob)]
    ensures outcome == Completed
  {
    BindsLedLast(battery, knob, led);
    LinkedLeavesNothing(p);
    var d := LinkedDevice(mac, p);
    d.Destroy();
    outcome := d.OnServicesDiscovered(Some([service]), Some([battery, knob, led]));
    remaining := d.listeners;
  }
}
