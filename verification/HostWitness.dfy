/** Concrete runs of the keyboard host from its start-up state, that reach what the lemmas about failures assume:
    each failure can happen (src/bt_kbd.c:382-595). */
module HostWitness {
  import opened HidTypes
  import opened ScanList
  import opened CommandQueue
  import opened HostMachine
  import opened HostSafety

  const YES := Oracle(true, false)
  const GO := Main(YES)

  /** Started with no bonds stored. */
  const START := Host(Top, Idle, Store(false, 0, false), Scan(false, []), [], Link(false, false, false, false, false))

  predicate Leads(s: Host, run: seq<Action>, t: Host) {
    At(s, run, |run|) == t
  }

  lemma Begin(s: Host)
    ensures Leads(s, [], s)
  {
  }

  lemma Step(s: Host, run: seq<Action>, t: Host, a: Action)
    requires Leads(s, run, t)
    ensures Leads(s, run + [a], Next(t, a))
  {
    hide Next;
    AtAppend(s, run, [a], 1);
    assert At(t, [a], 0) == t;
  }

  lemma Then(s: Host, run: seq<Action>, t: Host, more: seq<Action>, u: Host)
    requires Leads(s, run, t) && Leads(t, more, u)
    ensures Leads(s, run + more, u)
  {
    hide Next;
    AtAppend(s, run, more, |more|);
  }

  /** What a run has reached stays where it was when the run goes on. */
  lemma Reached(s: Host, run: seq<Action>, t: Host, more: seq<Action>)
    requires Leads(s, run, t)
    ensures At(s, run + more, |run|) == t
  {
    hide Next;
    AtPrefix(s, run, more, |run|);
  }

  lemma Two(s: Host, a: Action, b: Action)
    ensures Leads(s, [a, b], Next(Next(s, a), b))
  {
    hide Next;
    Begin(s);
    Step(s, [], s, a);
    assert [] + [a] == [a] && [a] + [b] == [a, b];
    Step(s, [a], Next(s, a), b);
    hide Leads;
  }

  lemma Four(s: Host, a: Action, b: Action, c: Action, d: Action)
    ensures Leads(s, [a, b, c, d], Next(Next(Next(Next(s, a), b), c), d))
  {
    hide Next, Leads;
    Two(s, a, b);
    Two(Next(Next(s, a), b), c, d);
    Then(s, [a, b], Next(Next(s, a), b), [c, d], Next(Next(Next(Next(s, a), b), c), d));
    assert [a, b] + [c, d] == [a, b, c, d];
  }

  // ---- the stages of a run ----

  /** Forget everything and start scanning. */
  lemma ToScan(s: Host) returns (run: seq<Action>, t: Host)
    requires s.pc == PairClear
    ensures Leads(s, run, t)
    ensures t == s.(pc := ScanPublish, state := Scanning, store := Store(false, 0, false), scan := Scan(true, []))
  {
    hide Leads, ReconnectStep, ConnectStep, LinkStep;
    var u := s.(pc := ScanStart, state := Scanning, store := Store(false, 0, false), scan := Scan(s.scan.active, []));
    Four(s, GO, GO, GO, GO);
    assert Next(Next(Next(Next(s, GO), GO), GO), GO) == u;
    Step(s, [GO, GO, GO, GO], u, GO);
    run, t := [GO, GO, GO, GO] + [GO], Next(u, GO);
  }

  lemma FromStart() returns (run: seq<Action>, t: Host)
    ensures Initial(START) && Leads(START, run, t)
    ensures t == START.(pc := ScanPublish, state := Scanning, scan := Scan(true, []))
  {
    hide Leads, PairStep, ScanStep, ConnectStep, LinkStep;
    var u := START.(pc := PairClear);
    Begin(START);
    Step(START, [], START, GO);
    assert Next(START, GO) == u;
    run, t := ToScan(u);
    Then(START, [] + [GO], u, run, t);
    run := [] + [GO] + run;
  }

  lemma Hear(s: Host, a: Advert)
    requires s.scan.active
    ensures Leads(s, [Env(Discovery(a))], s.(scan := s.scan.(devs := Collect(s.scan.devs, a))))
  {
    Begin(s);
    Step(s, [], s, Env(Discovery(a)));
    assert [] + [Env(Discovery(a))] == [Env(Discovery(a))];
    hide Leads;
  }

  lemma HeardFirst(a: Advert)
    requires a.Usable()
    ensures Collect([], a) == [NewDevice(a)]
  {
  }

  lemma HeardSecond(d: Advert, a: Advert)
    requires d.Usable() && a.Usable() && d.addr != a.addr
    ensures Collect([NewDevice(d)], a) == [NewDevice(d), NewDevice(a)]
  {
    var list := [NewDevice(d)];
    assert list[0].addr == d.addr;
    assert Find(list, a.addr) == 1;
    assert list + [NewDevice(a)] == [NewDevice(d), NewDevice(a)];
  }

  /** Take a selection at the head of the queue and start to connect. */
  lemma Choose(s: Host, k: int)
    requires s.pc == ScanReceive && s.queue != [] && s.queue[0] == SelectDevice(k) && 0 <= k < |s.scan.devs|
    ensures Leads(s, [GO, GO, GO, GO], s.(pc := ConnectOpen(s.scan.devs[k].addr), state := Connecting,
                                          scan := s.scan.(active := false), queue := s.queue[1..]))
    ensures Leads(s, [GO, GO, GO], s.(pc := SelectRead(k), scan := s.scan.(active := false), queue := s.queue[1..]))
  {
    hide Leads, ReconnectStep, PairStep, ConnectStep, LinkStep;
    var t := s.(pc := SelectCancel(k), queue := s.queue[1..]);
    Two(s, GO, GO);
    assert Next(Next(s, GO), GO) == t;
    Two(t, GO, GO);
    Then(s, [GO, GO], t, [GO, GO], Next(Next(t, GO), GO));
    Step(s, [GO, GO], t, GO);
    assert [GO, GO] + [GO, GO] == [GO, GO, GO, GO] && [GO, GO] + [GO] == [GO, GO, GO];
  }

  /** One device is heard, and the application chooses it. */
  lemma HearAndSend(s: Host, a: Advert)
    requires s.pc == ScanPublish && s.scan == Scan(true, []) && s.queue == [] && a.Usable()
    ensures Leads(s, [Env(Discovery(a)), Env(SendSelect(0)), GO],
                  s.(pc := ScanReceive, scan := Scan(true, [NewDevice(a)]), queue := [SelectDevice(0)]))
  {
    hide Leads, ReconnectStep, PairStep, ConnectStep, LinkStep;
    var u := s.(scan := Scan(true, [NewDevice(a)]));
    HeardFirst(a);
    Hear(s, a);
    Two(u, Env(SendSelect(0)), GO);
    assert [] + [SelectDevice(0)] == [SelectDevice(0)];
    Then(s, [Env(Discovery(a))], u, [Env(SendSelect(0)), GO], Next(Next(u, Env(SendSelect(0))), GO));
    assert [Env(Discovery(a))] + [Env(SendSelect(0)), GO] == [Env(Discovery(a)), Env(SendSelect(0)), GO];
  }

  /** From a fresh scan to waiting for the device heard first. */
  lemma ToWait(s: Host, a: Advert) returns (run: seq<Action>, t: Host)
    requires s.pc == ScanPublish && s.scan == Scan(true, []) && s.queue == [] && a.Usable()
    ensures Leads(s, run, t)
    ensures t == s.(pc := ConnectWait, state := Connecting, scan := Scan(false, [NewDevice(a)]),
                    link := s.link.(openDone := false))
  {
    hide Leads, ReconnectStep, PairStep, ScanStep, LinkStep;
    var v := s.(pc := ScanReceive, scan := Scan(true, [NewDevice(a)]), queue := [SelectDevice(0)]);
    HearAndSend(s, a);
    run := [Env(Discovery(a)), Env(SendSelect(0)), GO];
    Choose(v, 0);
    assert [SelectDevice(0)][1..] == [];
    var w := v.(pc := ConnectOpen(a.addr), state := Connecting, scan := Scan(false, [NewDevice(a)]), queue := []);
    Then(s, run, v, [GO, GO, GO, GO], w);
    run := run + [GO, GO, GO, GO];
    Step(s, run, w, GO);
    run, t := run + [GO], Next(w, GO);
  }

  /** Waiting for the first device ever chosen. */
  lemma StartToWait(a: Advert) returns (run: seq<Action>, t: Host)
    requires a.Usable()
    ensures Leads(START, run, t)
    ensures t == START.(pc := ConnectWait, state := Connecting, scan := Scan(false, [NewDevice(a)]))
  {
    hide Leads;
    var u;
    run, u := FromStart();
    var more;
    more, t := ToWait(u, a);
    Then(START, run, u, more, t);
    run := run + more;
  }

  // ---- a CLOSE between taking and giving the connected token ----

  /** From start-up to a test of the token with a CLOSE inside it: CONNECTED is about to be entered with the token
      back and the link down. */
  lemma TestInterrupted(a: Advert) returns (run: seq<Action>, t: Host)
    requires a.Usable()
    ensures Leads(START, run, t) && t.pc == Announce && t.link.connected && !t.link.up && t.link.stale
  {
    hide Leads, ReconnectStep, PairStep, ScanStep, LinkStep;
    var s;
    run, s := StartToWait(a);
    Four(s, Env(OpenOk), GO, GO, Env(Close));
    var more := [Env(OpenOk), GO, GO, Env(Close)];
    var u := Next(Next(Next(Next(s, Env(OpenOk)), GO), GO), Env(Close));
    assert u.pc == ConnectGive && !u.link.up;
    Step(s, more, u, GO);
    t := Next(u, GO);
    Then(START, run, s, more + [GO], t);
    run := run + (more + [GO]);
  }

  // ---- a token left over in disconnected_sem ----

  /** The link drops before the wait for it has ended: back to scanning with a token in disconnected_sem. */
  lemma LostWhileWaiting(s: Host) returns (run: seq<Action>, t: Host)
    requires s.pc == ConnectWait && !s.link.openDone
    ensures Leads(s, run, t)
    ensures t == s.(pc := ScanPublish, state := Scanning, store := Store(false, 0, false), scan := Scan(true, []),
                    link := Link(false, true, false, false, false))
  {
    hide Leads, ReconnectStep, PairStep, ScanStep, LinkStep;
    Four(s, Env(OpenOk), Env(Close), GO, GO);
    run := [Env(OpenOk), Env(Close), GO, GO];
    var u := Next(Next(Next(Next(s, Env(OpenOk)), Env(Close)), GO), GO);
    assert u == s.(pc := PairClear, store := s.store.(hidhDev := true), link := Link(false, true, false, false, false));
    var more;
    more, t := ToScan(u);
    Then(s, run, u, more, t);
    run := run + more;
  }

  /** From start-up: an OPEN and a CLOSE before the first wait has ended, a second device opened after that. It is about
      to be reported CONNECTED with its link up and the first link's token still in disconnected_sem. */
  lemma StaleToken(a: Advert) returns (run: seq<Action>, t: Host)
    requires a.Usable()
    ensures Leads(START, run, t) && t.pc == Announce && t.link.disconnected && t.link.up
  {
    hide Leads, ReconnectStep, PairStep, ScanStep, LinkStep;
    var s1, s2, s3, m2, m3;
    run, s1 := StartToWait(a);
    m2, s2 := LostWhileWaiting(s1);
    Then(START, run, s1, m2, s2);
    m3, s3 := ToWait(s2, a);
    Then(START, run + m2, s2, m3, s3);
    Four(s3, Env(OpenOk), GO, GO, GO);
    t := Next(Next(Next(Next(s3, Env(OpenOk)), GO), GO), GO);
    assert t.pc == Announce;
    Then(START, run + m2 + m3, s3, [Env(OpenOk), GO, GO, GO], t);
    run := run + m2 + m3 + [Env(OpenOk), GO, GO, GO];
  }

  /** That run goes on: CONNECTED is reported and left again at once, although the link is still up. */
  lemma StaleTokenRun(a: Advert) returns (run: seq<Action>, n: nat)
    requires a.Usable()
    ensures |run| == n + 3
    ensures Reported(At(START, run, n), run[n]) == Some(Connected)
    ensures Reported(At(START, run, n + 2), run[n + 2]) == Some(Reconnecting)
    ensures At(START, run, n + 3).link.up
  {
    hide Leads, At, Reported;
    var r, t := StaleToken(a);
    n := |r|;
    run := r + [GO, GO, GO];
    Reached(START, r, t, [GO, GO, GO]);
    StaleTokenEndsConnection(t);
    Continue(r, [GO, GO, GO], t, 0);
    Continue(r, [GO, GO, GO], t, 2);
    Continue(r, [GO, GO, GO], t, 3);
  }

  lemma Continue(run: seq<Action>, more: seq<Action>, t: Host, i: nat)
    requires Leads(START, run, t) && i <= |more|
    ensures At(START, run + more, |run| + i) == At(t, more, i)
  {
    hide Next;
    AtAppend(START, run, more, i);
  }

  // ---- a request behind a selection ----

  /** From start-up to CONNECTED, with a selection and behind it a re-pair request in the queue. */
  lemma BlockedConnected(a: Advert) returns (run: seq<Action>, t: Host)
    requires a.Usable()
    ensures Leads(START, run, t) && t.state == Connected && t.pc == LinkWait && !t.link.disconnected
    ensures t.queue == [SelectDevice(0), StartPairing]
  {
    hide Leads, ReconnectStep, PairStep, ScanStep;
    var s;
    run, s := StartToWait(a);
    Four(s, Env(OpenOk), GO, GO, GO);
    var u := Next(Next(Next(Next(s, Env(OpenOk)), GO), GO), GO);
    assert u.pc == Announce && u.queue == [] && !u.link.disconnected;
    Then(START, run, s, [Env(OpenOk), GO, GO, GO], u);
    run := run + [Env(OpenOk), GO, GO, GO];
    Step(START, run, u, GO);
    var v := Next(u, GO);
    Two(v, Env(SendSelect(0)), Env(SendStart));
    t := Next(Next(v, Env(SendSelect(0))), Env(SendStart));
    assert t.queue == [] + [SelectDevice(0)] + [StartPairing];
    Then(START, run + [GO], v, [Env(SendSelect(0)), Env(SendStart)], t);
    run := run + [GO] + [Env(SendSelect(0)), Env(SendStart)];
  }

  /** The same while CONNECTING. */
  lemma BlockedConnecting(a: Advert) returns (run: seq<Action>, t: Host)
    requires a.Usable()
    ensures Leads(START, run, t) && t.state == Connecting && t.pc == ConnectWait && !t.link.openDone
    ensures t.queue == [SelectDevice(0), StartPairing]
  {
    hide Leads, MainStep;
    var s;
    run, s := StartToWait(a);
    Two(s, Env(SendSelect(0)), Env(SendStart));
    t := Next(Next(s, Env(SendSelect(0))), Env(SendStart));
    assert t.queue == [] + [SelectDevice(0)] + [StartPairing];
    Then(START, run, s, [Env(SendSelect(0)), Env(SendStart)], t);
    run := run + [Env(SendSelect(0)), Env(SendStart)];
  }

  // ---- a request that is refused ----

  /** From start-up to CONNECTED with four selections in the queue: a request sent now changes nothing. */
  lemma RequestRefused(a: Advert) returns (run: seq<Action>, t: Host)
    requires a.Usable()
    ensures Leads(START, run, t) && t.state == Connected && t.pc == LinkWait && !t.link.disconnected
    ensures t.queue == [SelectDevice(0), SelectDevice(0), SelectDevice(0), SelectDevice(0)]
    ensures Next(t, Env(SendStart)) == t
  {
    hide Leads, ReconnectStep, PairStep, ScanStep;
    var s;
    run, s := StartToWait(a);
    Four(s, Env(OpenOk), GO, GO, GO);
    var u := Next(Next(Next(Next(s, Env(OpenOk)), GO), GO), GO);
    assert u.pc == Announce && u.queue == [] && !u.link.disconnected;
    Then(START, run, s, [Env(OpenOk), GO, GO, GO], u);
    run := run + [Env(OpenOk), GO, GO, GO];
    Step(START, run, u, GO);
    var v := Next(u, GO);
    var more := FillQueue(v);
    t := v.(queue := [SelectDevice(0), SelectDevice(0), SelectDevice(0), SelectDevice(0)]);
    Then(START, run + [GO], v, more, t);
    run := run + [GO] + more;
  }

  lemma FillQueue(s: Host) returns (run: seq<Action>)
    requires s.queue == []
    ensures Leads(s, run, s.(queue := [SelectDevice(0), SelectDevice(0), SelectDevice(0), SelectDevice(0)]))
  {
    hide Leads, MainStep;
    var x := Env(SendSelect(0));
    Four(s, x, x, x, x);
    run := [x, x, x, x];
    var q := [SelectDevice(0)];
    assert Next(s, x) == s.(queue := q) && Next(s.(queue := q), x) == s.(queue := q + q);
    assert Next(s.(queue := q + q), x) == s.(queue := q + q + q);
    assert Next(s.(queue := q + q + q), x) == s.(queue := q + q + q + q);
    assert q + q + q + q == [SelectDevice(0), SelectDevice(0), SelectDevice(0), SelectDevice(0)];
  }

  // ---- selections that do not mean what was shown ----

  /** Scanning, with the list of one device just published. */
  lemma Shown(d: Advert) returns (run: seq<Action>, t: Host)
    requires d.Usable()
    ensures Leads(START, run, t)
    ensures t == START.(pc := ScanPublish, state := Scanning, scan := Scan(true, [NewDevice(d)]))
  {
    hide Leads;
    var s;
    run, s := FromStart();
    HeardFirst(d);
    Hear(s, d);
    t := s.(scan := Scan(true, [NewDevice(d)]));
    Then(START, run, s, [Env(Discovery(d))], t);
    run := run + [Env(Discovery(d))];
  }

  /** An index past the published list is not ignored: a second device is heard, and the selection opens it although the
      application was never shown it. */
  lemma UnshownDeviceOpened(d: Advert, a: Advert) returns (run: seq<Action>, i: nat, j: nat)
    requires d.Usable() && a.Usable() && d.addr != a.addr
    ensures j + 1 == |run| && At(START, run, j).pc == SelectRead(1)
    ensures i <= j && run[i..] == [GO, Env(Discovery(a)), Env(SendSelect(1)), GO, GO, GO, GO]
    ensures Published(At(START, run, i), run[i]) == Some([NewDevice(d)])
    ensures At(START, run, j + 1).pc == ConnectOpen(a.addr) && a.addr != NewDevice(d).addr
  {
    hide Leads, At, ReconnectStep, PairStep, ConnectStep, LinkStep;
    var r, t := Shown(d);
    var more, u := ListenAndSend(t, d, a);
    Choose(u, 1);
    var x := u.(pc := SelectRead(1), scan := u.scan.(active := false), queue := u.queue[1..]);
    Then(t, more, u, [GO, GO, GO], x);
    Then(START, r, t, more + [GO, GO, GO], x);
    i, j := |r|, |r| + |more| + 3;
    run := r + (more + [GO, GO, GO]) + [GO];
    Step(START, r + (more + [GO, GO, GO]), x, GO);
    Last(START, run, Next(x, GO));
    Reached(START, r + (more + [GO, GO, GO]), x, [GO]);
    Reached(START, r, t, more + [GO, GO, GO] + [GO]);
    assert run == r + (more + [GO, GO, GO] + [GO]);
    assert run[i..] == more + [GO, GO, GO] + [GO];
    assert run[i] == run[i..][0];
  }

  /** A list of one device is published, a second device is heard, and the application sends index 1. */
  lemma ListenAndSend(t: Host, d: Advert, a: Advert) returns (run: seq<Action>, u: Host)
    requires t.pc == ScanPublish && t.scan == Scan(true, [NewDevice(d)]) && t.queue == []
    requires d.Usable() && a.Usable() && d.addr != a.addr
    ensures run == [GO, Env(Discovery(a)), Env(SendSelect(1))] && Leads(t, run, u)
    ensures u == t.(pc := ScanReceive, scan := Scan(true, [NewDevice(d), NewDevice(a)]), queue := [SelectDevice(1)])
  {
    hide Leads, ReconnectStep, PairStep, ConnectStep, LinkStep, Collect;
    HeardSecond(d, a);
    Two(t, GO, Env(Discovery(a)));
    var v := Next(Next(t, GO), Env(Discovery(a)));
    Step(t, [GO, Env(Discovery(a))], v, Env(SendSelect(1)));
    run, u := [GO, Env(Discovery(a))] + [Env(SendSelect(1))], Next(v, Env(SendSelect(1)));
    assert [] + [SelectDevice(1)] == [SelectDevice(1)];
  }

  lemma Last(s: Host, run: seq<Action>, t: Host)
    requires Leads(s, run, t)
    ensures At(s, run, |run|) == t
  {
  }

  const QUIET := Main(Oracle(false, false))

  /** A reset in between does the same: the application is shown one device, asks for a re-pair and then chooses
      index 0, and the device heard first after the reset is opened. */
  lemma SelectionAfterResetDiffers(d: Advert, a: Advert) returns (run: seq<Action>, i: nat)
    requires d.Usable() && a.Usable() && d.addr != a.addr
    ensures i + 3 <= |run| && Published(At(START, run, i), run[i]) == Some([NewDevice(d)])
    ensures run[i + 1] == Env(SendStart) && run[i + 2] == Env(SendSelect(0))
    ensures At(START, run, |run|).pc == ConnectOpen(a.addr) && a.addr != NewDevice(d).addr
  {
    hide Leads, At, MainStep;
    var r, t := Shown(d);
    var m1, u := ShownThenAsked(t, d);
    var m2, v := Restarted(u);
    var m3, w := ChosenAfter(v, a);
    i := |r|;
    Then(t, m1, u, m2, v);
    Then(t, m1 + m2, v, m3, w);
    Then(START, r, t, m1 + m2 + m3, w);
    run := r + (m1 + m2 + m3);
    Last(START, run, w);
    Reached(START, r, t, m1 + m2 + m3);
  }

  lemma ShownThenAsked(t: Host, d: Advert) returns (run: seq<Action>, u: Host)
    requires t.pc == ScanPublish && t.queue == []
    ensures run == [GO, Env(SendStart), Env(SendSelect(0))] && Leads(t, run, u)
    ensures u == t.(pc := ScanReceive, queue := [StartPairing, SelectDevice(0)])
  {
    hide Leads, ReconnectStep, PairStep, ConnectStep, LinkStep, Collect;
    Two(t, GO, Env(SendStart));
    var v := Next(Next(t, GO), Env(SendStart));
    Step(t, [GO, Env(SendStart)], v, Env(SendSelect(0)));
    run, u := [GO, Env(SendStart)] + [Env(SendSelect(0))], Next(v, Env(SendSelect(0)));
    assert [] + [StartPairing] + [SelectDevice(0)] == [StartPairing, SelectDevice(0)];
  }

  lemma Restarted(s: Host) returns (run: seq<Action>, t: Host)
    requires s.pc == ScanReceive && s.queue == [StartPairing, SelectDevice(0)]
    ensures Leads(s, run, t)
    ensures t == s.(pc := ScanPublish, queue := [SelectDevice(0)], store := s.store.(bonds := 0),
                    scan := Scan(true, []))
  {
    hide Leads, ReconnectStep, ConnectStep, LinkStep;
    assert s.queue[1..] == [SelectDevice(0)];
    var u := s.(pc := ScanStart, queue := [SelectDevice(0)], store := s.store.(bonds := 0), scan := Scan(false, []));
    Four(s, GO, GO, GO, GO);
    assert Next(Next(Next(Next(s, GO), GO), GO), GO) == u;
    Step(s, [GO, GO, GO, GO], u, GO);
    run, t := [GO, GO, GO, GO] + [GO], Next(u, GO);
  }

  lemma ChosenAfter(s: Host, a: Advert) returns (run: seq<Action>, t: Host)
    requires s.pc == ScanPublish && s.queue == [SelectDevice(0)] && s.scan == Scan(true, []) && a.Usable()
    ensures Leads(s, run, t) && t.pc == ConnectOpen(a.addr)
  {
    hide Leads, ReconnectStep, PairStep, ConnectStep, LinkStep;
    HeardFirst(a);
    Hear(s, a);
    var u := s.(scan := Scan(true, [NewDevice(a)]));
    Step(s, [Env(Discovery(a))], u, QUIET);
    var v := Next(u, QUIET);
    assert v == u.(pc := ScanReceive);
    Choose(v, 0);
    t := v.(pc := ConnectOpen(a.addr), state := Connecting, scan := v.scan.(active := false), queue := v.queue[1..]);
    Then(s, [Env(Discovery(a))] + [QUIET], v, [GO, GO, GO, GO], t);
    run := [Env(Discovery(a))] + [QUIET] + [GO, GO, GO, GO];
  }
}
