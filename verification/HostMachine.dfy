/** The keyboard host as a step relation: one main task, interleaved with the scan callback, the connection
    events and the commands sent by the application (src/bt_kbd.c:70-76, 200-430, 432-594, 665-675).
    A main step is the code between two accesses to shared state; it is deterministic given an oracle for
    the clock and for the calls into the Bluetooth stack. */
module HostMachine {
  import opened HidTypes
  import opened ScanList
  import opened CommandQueue

  datatype KbdState = Idle | Reconnecting | Scanning | Connecting | Connected

  /** Where the main task is. */
  datatype Pc =
    | Top                        // 385-391
    | ReconnectPoll              // 395
    | ReconnectTry               // 399-405, 316-343
    | BondedWait                 // 347-349
    | BondedPeek                 // 351-356
    | BondedTake                 // 359, 364-366
    | BondedGive                 // 360-361
    | ReconnectDelay             // 410-412
    | PairClear                  // 420-421
    | PairForget                 // 422
    | PairReset                  // 425-428
    | PairAnnounce               // 430
    | ScanStart                  // 433-445
    | ScanPublish                // 457-469
    | ScanReceive                // 472-475
    | ScanValidate(k: int)       // 484-493
    | ScanCheck                  // 497-501
    | TimeoutCancel              // 502-507
    | TimeoutReset               // 508-512
    | RestartCancel              // 476
    | RestartReset               // 477-480
    | RestartClear               // 481-482
    | SelectCancel(k: int)       // 517-518
    | SelectRead(k: int)         // 520-524
    | ConnectOpen(addr: Address) // 526-532
    | ConnectWait                // 533-535
    | ConnectPeek                // 536-539
    | ConnectAbort               // 540-542
    | ConnectTake                // 545, 550-557
    | ConnectGive                // 546-547
    | Announce                   // 564-568
    | LinkWait                   // 575-576
    | LinkPeek                   // 577-580
    | LinkClose                  // 582-586
    | LinkLost                   // 590-594

  /** What outlives a connection: the re-pair flag, the bond store and the remembered device. */
  datatype Store = Store(forceRepair: bool, bonds: nat, hidhDev: bool)

  datatype Scan = Scan(active: bool, devs: seq<Device>)

  /** The three binary semaphores. `up` and `stale` are history: whether the last event reporting a link was
      a successful OPEN, and whether the connected token was put back after the CLOSE that should have
      taken it. */
  datatype Link = Link(connected: bool, disconnected: bool, openDone: bool, up: bool, stale: bool)

  datatype Host = Host(pc: Pc, state: KbdState, store: Store, scan: Scan, queue: seq<Command>, link: Link)

  predicate Initial(s: Host) {
    && s.pc == Top && s.state == Idle && !s.store.hidhDev && s.scan == Scan(false, []) && s.queue == []
    && s.link == Link(false, false, false, false, false)
  }

  /** What the clock and the Bluetooth stack answer: `yes` for success, `expired` for a passed deadline. */
  datatype Oracle = Oracle(yes: bool, expired: bool)

  datatype Event =
    | SendStart | SendSelect(index: int)
    | Discovery(advert: Advert)
    | OpenOk | OpenFailed | Close
    | BondStored

  datatype Action = Main(oracle: Oracle) | Env(event: Event)

  predicate StartAtHead(s: Host) {
    s.queue != [] && s.queue[0] == StartPairing
  }

  /** A receive in the reconnect phase: only StartPairing matters, anything else is dropped. */
  function DropOrPair(s: Host, onEmpty: Pc): Host {
    if s.queue == [] then s.(pc := onEmpty)
    else if StartAtHead(s) then s.(queue := s.queue[1..], pc := PairClear)
    else s.(queue := s.queue[1..])
  }

  /** Wait for the open-done token until the deadline, one slice at a time. */
  function AwaitOpen(s: Host, expired: bool, done: Pc, slice: Pc): Host {
    if expired then s.(pc := done)
    else if s.link.openDone then s.(link := s.link.(openDone := false), pc := done)
    else s.(pc := slice)
  }

  function Receive(s: Host): Host {
    if s.queue == [] then s.(pc := ScanCheck)
    else match s.queue[0]
      case StartPairing => s.(queue := s.queue[1..], pc := RestartCancel)
      case SelectDevice(k) => s.(queue := s.queue[1..], pc := ScanValidate(k))
  }

  function SelectedAddress(s: Host, k: int): Address {
    if 0 <= k < |s.scan.devs| then s.scan.devs[k].addr else [0, 0, 0, 0, 0, 0]
  }

  /** Reconnecting to a bonded keyboard. */
  function ReconnectStep(s: Host, o: Oracle): Host {
    match s.pc
    case Top =>
      if !s.store.forceRepair && o.yes && s.store.bonds > 0 then s.(state := Reconnecting, pc := ReconnectPoll)
      else s.(pc := PairClear)
    case ReconnectPoll => DropOrPair(s, ReconnectTry)
    case ReconnectTry =>
      if s.store.hidhDev then s.(pc := if o.yes then Announce else ReconnectDelay)
      else if o.yes then s.(link := s.link.(openDone := false), pc := BondedWait)
      else s.(pc := ReconnectDelay)
    case BondedWait => AwaitOpen(s, o.expired, BondedTake, BondedPeek)
    case BondedPeek => s.(pc := if StartAtHead(s) then ReconnectDelay else BondedWait)
    case BondedTake =>
      if s.link.connected then s.(link := s.link.(connected := false), pc := BondedGive) else s.(pc := ReconnectDelay)
    case BondedGive => s.(link := s.link.(connected := true, stale := !s.link.up), pc := Announce)
    case ReconnectDelay => DropOrPair(s, if o.expired then ReconnectPoll else ReconnectDelay)
    case _ => s
  }

  /** Forgetting the bonds, and starting over after a timeout or a repeated request. */
  function PairStep(s: Host, o: Oracle): Host {
    match s.pc
    case PairClear => s.(store := s.store.(forceRepair := false, bonds := 0), pc := PairForget)
    case PairForget => s.(store := s.store.(hidhDev := false), pc := PairReset)
    case PairReset => s.(scan := s.scan.(devs := []), pc := PairAnnounce)
    case PairAnnounce => s.(state := Scanning, pc := ScanStart)
    case TimeoutCancel => s.(scan := s.scan.(active := false), pc := TimeoutReset)
    case TimeoutReset => s.(scan := s.scan.(devs := []), pc := ScanStart)
    case RestartCancel => s.(scan := s.scan.(active := false), pc := RestartReset)
    case RestartReset => s.(scan := s.scan.(devs := []), pc := RestartClear)
    case RestartClear => s.(store := s.store.(bonds := 0), pc := ScanStart)
    case _ => s
  }

  /** Scanning until a device is selected. */
  function ScanStep(s: Host, o: Oracle): Host {
    match s.pc
    case ScanStart => if o.yes then s.(scan := s.scan.(active := true), pc := ScanPublish) else s
    case ScanPublish => s.(pc := ScanReceive)
    case ScanReceive => Receive(s)
    case ScanValidate(k) => s.(pc := if 0 <= k < |s.scan.devs| then SelectCancel(k) else ScanCheck)
    case ScanCheck => s.(pc := if s.scan.devs == [] && o.expired then TimeoutCancel else ScanPublish)
    case SelectCancel(k) => s.(scan := s.scan.(active := false), pc := SelectRead(k))
    case SelectRead(k) => s.(state := Connecting, pc := ConnectOpen(SelectedAddress(s, k)))
    case _ => s
  }

  /** Opening the selected device. */
  function ConnectStep(s: Host, o: Oracle): Host {
    match s.pc
    case ConnectOpen(_) => s.(link := s.link.(openDone := false), pc := ConnectWait)
    case ConnectWait => AwaitOpen(s, o.expired, ConnectTake, ConnectPeek)
    case ConnectPeek =>
      if StartAtHead(s) then s.(queue := s.queue[1..], pc := ConnectAbort) else s.(pc := ConnectWait)
    case ConnectAbort => s.(link := s.link.(openDone := false), pc := PairClear)
    case ConnectTake =>
      if s.link.connected then s.(link := s.link.(connected := false), pc := ConnectGive) else s.(pc := PairClear)
    case ConnectGive => s.(link := s.link.(connected := true, stale := !s.link.up), pc := Announce)
    case _ => s
  }

  /** Connected, until the link is lost or a re-pair is requested. */
  function LinkStep(s: Host, o: Oracle): Host {
    match s.pc
    case Announce => s.(state := Connected, pc := LinkWait)
    case LinkWait =>
      if s.link.disconnected then s.(link := s.link.(disconnected := false), pc := LinkLost) else s.(pc := LinkPeek)
    case LinkPeek =>
      if StartAtHead(s) then s.(queue := s.queue[1..], pc := LinkClose) else s.(pc := LinkWait)
    case LinkClose =>
      if s.store.hidhDev then s.(link := s.link.(disconnected := false), pc := PairClear) else s.(pc := PairClear)
    case LinkLost => s.(state := Reconnecting, pc := Top)
    case _ => s
  }

  function MainStep(s: Host, o: Oracle): Host {
    match s.pc
    case Top | ReconnectPoll | ReconnectTry | BondedWait | BondedPeek | BondedTake | BondedGive | ReconnectDelay =>
      ReconnectStep(s, o)
    case PairClear | PairForget | PairReset | PairAnnounce
       | TimeoutCancel | TimeoutReset | RestartCancel | RestartReset | RestartClear =>
      PairStep(s, o)
    case ScanStart | ScanPublish | ScanReceive | ScanValidate(_) | ScanCheck | SelectCancel(_) | SelectRead(_) =>
      ScanStep(s, o)
    case ConnectOpen(_) | ConnectWait | ConnectPeek | ConnectAbort | ConnectTake | ConnectGive =>
      ConnectStep(s, o)
    case Announce | LinkWait | LinkPeek | LinkClose | LinkLost =>
      LinkStep(s, o)
  }

  function Send(s: Host, cmd: Command): Host {
    s.(queue := Enqueue(s.queue, cmd))
  }

  function EnvStep(s: Host, e: Event): Host {
    match e
    case SendStart => Send(s, StartPairing)
    case SendSelect(k) => Send(s, SelectDevice(k))
    case Discovery(a) => if s.scan.active then s.(scan := s.scan.(devs := Collect(s.scan.devs, a))) else s
    case OpenOk => s.(store := s.store.(hidhDev := true), link := Link(true, s.link.disconnected, true, true, false))
    case OpenFailed => s.(link := s.link.(openDone := true))
    case Close => s.(link := Link(false, true, s.link.openDone, false, false))
    case BondStored => s.(store := s.store.(bonds := s.store.bonds + 1))
  }

  function Next(s: Host, a: Action): Host {
    match a
    case Main(o) => MainStep(s, o)
    case Env(e) => EnvStep(s, e)
  }

  /** The state before action i of a run. */
  function At(s: Host, run: seq<Action>, i: nat): Host
    requires i <= |run|
  {
    if i == 0 then s else Next(At(s, run, i - 1), run[i - 1])
  }

  lemma AtStart(s: Host, run: seq<Action>)
    ensures At(s, run, 0) == s
  {
  }

  lemma AtNext(s: Host, run: seq<Action>, i: nat)
    requires i < |run|
    ensures At(s, run, i + 1) == Next(At(s, run, i), run[i])
  {
  }

  /** Main steps taken between i and j. */
  function Mains(run: seq<Action>, i: nat, j: nat): nat
    requires i <= j <= |run|
  {
    if i == j then 0 else Mains(run, i, j - 1) + if run[j - 1].Main? then 1 else 0
  }

  lemma {:induction false} AtPrefix(s: Host, a: seq<Action>, b: seq<Action>, i: nat)
    requires i <= |a|
    ensures At(s, a + b, i) == At(s, a, i)
  {
    hide Next;
    if i > 0 {
      AtPrefix(s, a, b, i - 1);
    }
  }

  /** A run followed by another one. */
  lemma {:induction false} AtAppend(s: Host, a: seq<Action>, b: seq<Action>, i: nat)
    requires i <= |b|
    ensures At(s, a + b, |a| + i) == At(At(s, a, |a|), b, i)
  {
    hide Next;
    if i > 0 {
      AtAppend(s, a, b, i - 1);
      assert (a + b)[|a| + i - 1] == b[i - 1];
    } else {
      AtPrefix(s, a, b, |a|);
    }
  }

  // ---- what a step does, as seen from outside ----

  /** The state reported by set_state. */
  function Reported(s: Host, a: Action): Option<KbdState> {
    if a.Env? then None
    else match s.pc
      case Top => if MainStep(s, a.oracle).pc == ReconnectPoll then Some(Reconnecting) else None
      case PairAnnounce => Some(Scanning)
      case SelectRead(_) => Some(Connecting)
      case Announce => Some(Connected)
      case LinkLost => Some(Reconnecting)
      case _ => None
  }

  /** The state given to the on_status callback: set_state calls it, and so do two prompts. */
  function StatusShown(s: Host, a: Action): Option<KbdState> {
    if a.Main? && (s.pc == TimeoutCancel || (s.pc == ConnectTake && !s.link.connected)) then Some(Scanning)
    else Reported(s, a)
  }

  /** The main task takes a StartPairing out of the queue. */
  predicate Consumes(s: Host, a: Action) {
    && a.Main? && StartAtHead(s)
    && (s.pc == ReconnectPoll || s.pc == ReconnectDelay || s.pc == ScanReceive
        || s.pc == ConnectPeek || s.pc == LinkPeek)
  }

  predicate ClearsBonds(s: Host, a: Action) {
    a.Main? && (s.pc == PairClear || s.pc == RestartClear)
  }

  predicate ForgetsDevice(s: Host, a: Action) {
    a.Main? && s.pc == PairForget
  }

  predicate ResetsList(s: Host, a: Action) {
    a.Main? && (s.pc == PairReset || s.pc == RestartReset || s.pc == TimeoutReset)
  }

  /** The list handed to on_scan_updated. */
  function Published(s: Host, a: Action): Option<seq<Device>> {
    if a.Main? && s.pc == ScanPublish && a.oracle.yes then Some(s.scan.devs) else None
  }
}
