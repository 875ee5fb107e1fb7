/** Re-pair requests over all runs of the keyboard host: none is lost or served twice, each one clears the
    bonds and the list before the host connects again, and one at the head of the queue is served in time
    (src/bt_kbd.c:88-107, 345-357, 393-430, 472-483, 533-544, 574-588). */
module HostRepair {
  import opened HidTypes
  import opened ScanList
  import opened CommandQueue
  import opened HostMachine

  // ---- commands are served first in, first out ----

  /** The command a step puts into the queue; a full queue refuses it. */
  function Accepted(s: Host, a: Action): seq<Command> {
    match a
    case Env(SendStart) => if |s.queue| < CAPACITY then [StartPairing] else []
    case Env(SendSelect(k)) => if |s.queue| < CAPACITY then [SelectDevice(k)] else []
    case _ => []
  }

  /** The command a step takes out: the peeking loops take only StartPairing. */
  function Taken(s: Host, a: Action): seq<Command> {
    if a.Main? && s.queue != []
       && (s.pc == ReconnectPoll || s.pc == ReconnectDelay || s.pc == ScanReceive
           || ((s.pc == ConnectPeek || s.pc == LinkPeek) && s.queue[0] == StartPairing))
    then [s.queue[0]] else []
  }

  lemma MainTakes(s: Host, o: Oracle)
    requires Taken(s, Main(o)) != []
    ensures MainStep(s, o).queue == s.queue[1..]
  {
  }

  lemma MainPeeks(s: Host, o: Oracle)
    requires Taken(s, Main(o)) == []
    ensures MainStep(s, o).queue == s.queue
  {
  }

  lemma MainQueue(s: Host, o: Oracle)
    ensures MainStep(s, o).queue == if Taken(s, Main(o)) == [] then s.queue else s.queue[1..]
  {
    hide MainStep;
    if Taken(s, Main(o)) == [] {
      MainPeeks(s, o);
    } else {
      MainTakes(s, o);
    }
  }

  lemma SplitHead(q: seq<Command>)
    ensures [] + q == q && q + [] == q
    ensures q != [] ==> [q[0]] + q[1..] == q
  {
  }

  lemma QueueStep(s: Host, a: Action)
    ensures s.queue + Accepted(s, a) == Taken(s, a) + Next(s, a).queue
  {
    SplitHead(s.queue);
    match a
    case Main(o) =>
      hide MainStep;
      MainQueue(s, o);
    case Env(e) =>
      EnvQueue(s, e);
      SplitHead(EnvStep(s, e).queue);
  }

  lemma EnvQueue(s: Host, e: Event)
    ensures EnvStep(s, e).queue == s.queue + Accepted(s, Env(e))
  {
    SplitHead(s.queue);
  }

  function AllAccepted(s: Host, run: seq<Action>, i: nat): seq<Command>
    requires i <= |run|
  {
    if i == 0 then [] else AllAccepted(s, run, i - 1) + Accepted(At(s, run, i - 1), run[i - 1])
  }

  function AllTaken(s: Host, run: seq<Action>, i: nat): seq<Command>
    requires i <= |run|
  {
    if i == 0 then [] else AllTaken(s, run, i - 1) + Taken(At(s, run, i - 1), run[i - 1])
  }

  lemma Regroup(a: seq<Command>, b: seq<Command>, c: seq<Command>)
    ensures (a + b) + c == a + (b + c)
  {
  }

  /** What was queued and accepted is, in order, what was taken followed by what is still queued. */
  lemma {:induction false} FirstInFirstOut(s: Host, run: seq<Action>, i: nat)
    requires i <= |run|
    ensures s.queue + AllAccepted(s, run, i) == AllTaken(s, run, i) + At(s, run, i).queue
  {
    if i == 0 {
      assert s.queue + [] == s.queue && [] + s.queue == s.queue;
    } else {
      var t, a := At(s, run, i - 1), run[i - 1];
      hide Next, Accepted, Taken;
      FirstInFirstOut(s, run, i - 1);
      QueueStep(t, a);
      Regroup(s.queue, AllAccepted(s, run, i - 1), Accepted(t, a));
      Regroup(AllTaken(s, run, i - 1), t.queue, Accepted(t, a));
      Regroup(AllTaken(s, run, i - 1), Taken(t, a), Next(t, a).queue);
    }
  }

  function Starts(q: seq<Command>): nat {
    if q == [] then 0 else Starts(q[..|q| - 1]) + if q[|q| - 1] == StartPairing then 1 else 0
  }

  lemma {:induction false} StartsAppend(a: seq<Command>, b: seq<Command>)
    ensures Starts(a + b) == Starts(a) + Starts(b)
    decreases |b|
  {
    if b == [] {
      assert a + b == a;
    } else {
      var n := |b| - 1;
      assert (a + b)[..|a + b| - 1] == a + b[..n];
      StartsAppend(a, b[..n]);
    }
  }

  lemma StartsOne(c: Command)
    ensures Starts([c]) == if c == StartPairing then 1 else 0
  {
    assert [c][..0] == [];
  }

  /** How many requests the main task has served. */
  function Served(s: Host, run: seq<Action>, i: nat): nat
    requires i <= |run|
  {
    if i == 0 then 0
    else Served(s, run, i - 1) + if Consumes(At(s, run, i - 1), run[i - 1]) then 1 else 0
  }

  lemma TakenStarts(s: Host, a: Action)
    ensures Starts(Taken(s, a)) == if Consumes(s, a) then 1 else 0
  {
    if Taken(s, a) != [] {
      StartsOne(s.queue[0]);
    }
  }

  lemma NoneTaken(s: Host, run: seq<Action>)
    ensures Starts(AllTaken(s, run, 0)) == 0 && Served(s, run, 0) == 0
  {
    hide At, Taken, Consumes;
  }

  lemma OneMoreTaken(s: Host, run: seq<Action>, i: nat)
    requires i < |run|
    ensures AllTaken(s, run, i + 1) == AllTaken(s, run, i) + Taken(At(s, run, i), run[i])
    ensures Served(s, run, i + 1) == Served(s, run, i) + if Consumes(At(s, run, i), run[i]) then 1 else 0
  {
    hide At, Taken, Consumes;
  }

  lemma {:induction false} TakenAreServed(s: Host, run: seq<Action>, i: nat)
    requires i <= |run|
    ensures Starts(AllTaken(s, run, i)) == Served(s, run, i)
  {
    hide *;
    if i == 0 {
      NoneTaken(s, run);
    } else {
      var t, a := At(s, run, i - 1), run[i - 1];
      TakenAreServed(s, run, i - 1);
      OneMoreTaken(s, run, i - 1);
      StartsAppend(AllTaken(s, run, i - 1), Taken(t, a));
      TakenStarts(t, a);
    }
  }

  /** No request is lost and none is served twice: those accepted are those served and those still queued. */
  lemma NoRequestLostOrDoubled(s: Host, run: seq<Action>, i: nat)
    requires i <= |run|
    ensures Starts(s.queue) + Starts(AllAccepted(s, run, i)) == Served(s, run, i) + Starts(At(s, run, i).queue)
  {
    FirstInFirstOut(s, run, i);
    TakenAreServed(s, run, i);
    StartsAppend(s.queue, AllAccepted(s, run, i));
    StartsAppend(AllTaken(s, run, i), At(s, run, i).queue);
  }

  // ---- a served request clears the bonds and the list before anything else is reported ----

  predicate OwesClear(pc: Pc) {
    pc == PairClear || pc == ConnectAbort || pc == LinkClose
    || pc == RestartCancel || pc == RestartReset || pc == RestartClear
  }

  predicate OwesReset(pc: Pc) {
    pc == PairClear || pc == PairForget || pc == PairReset || pc == ConnectAbort || pc == LinkClose
    || pc == RestartCancel || pc == RestartReset
  }

  lemma AfterConsuming(s: Host, a: Action)
    requires Consumes(s, a)
    ensures OwesClear(Next(s, a).pc) && OwesReset(Next(s, a).pc)
  {
  }

  lemma OwesStep(s: Host, a: Action)
    requires OwesClear(s.pc) || OwesReset(s.pc)
    ensures OwesClear(s.pc) && !ClearsBonds(s, a) ==> OwesClear(Next(s, a).pc)
    ensures OwesReset(s.pc) && !ResetsList(s, a) ==> OwesReset(Next(s, a).pc)
    ensures Reported(s, a) == None
  {
    hide ReconnectStep, ScanStep;
  }

  /** Between steps i and j the bonds were cleared and the list was emptied. */
  predicate Cleared(s: Host, run: seq<Action>, i: nat, j: nat)
    requires i <= j <= |run|
  {
    exists k :: i <= k < j && ClearsBonds(At(s, run, k), run[k])
  }

  predicate Emptied(s: Host, run: seq<Action>, i: nat, j: nat)
    requires i <= j <= |run|
  {
    exists k :: i <= k < j && ResetsList(At(s, run, k), run[k])
  }

  lemma ClearedGrows(s: Host, run: seq<Action>, i: nat, j: nat)
    requires i <= j < |run|
    ensures Cleared(s, run, i, j) || ClearsBonds(At(s, run, j), run[j]) ==> Cleared(s, run, i, j + 1)
  {
    hide At, ClearsBonds;
  }

  lemma EmptiedGrows(s: Host, run: seq<Action>, i: nat, j: nat)
    requires i <= j < |run|
    ensures Emptied(s, run, i, j) || ResetsList(At(s, run, j), run[j]) ==> Emptied(s, run, i, j + 1)
  {
    hide At, ResetsList;
  }

  lemma {:induction false} StillOwes(s: Host, run: seq<Action>, i: nat, j: nat)
    requires i < j <= |run| && Consumes(At(s, run, i), run[i])
    ensures Cleared(s, run, i, j) || OwesClear(At(s, run, j).pc)
    ensures Emptied(s, run, i, j) || OwesReset(At(s, run, j).pc)
  {
    hide At, Next, Consumes, OwesClear, OwesReset, ClearsBonds, ResetsList, Cleared, Emptied;
    AtNext(s, run, j - 1);
    if j == i + 1 {
      AfterConsuming(At(s, run, i), run[i]);
    } else {
      StillOwes(s, run, i, j - 1);
      var t, a := At(s, run, j - 1), run[j - 1];
      ClearedGrows(s, run, i, j - 1);
      EmptiedGrows(s, run, i, j - 1);
      if OwesClear(t.pc) || OwesReset(t.pc) {
        OwesStep(t, a);
      }
    }
  }

  /** Whatever site took the request, and whatever happens meanwhile: before CONNECTING, CONNECTED or
      RECONNECTING is reported again, the bond store has been cleared and the scan list emptied. */
  lemma RepairBeforeNextLink(s: Host, run: seq<Action>, i: nat, j: nat)
    requires i < j < |run| && Consumes(At(s, run, i), run[i])
    requires Reported(At(s, run, j), run[j]) in {Some(Connecting), Some(Connected), Some(Reconnecting)}
    ensures Cleared(s, run, i, j) && Emptied(s, run, i, j)
    ensures exists k :: i < k <= j && At(s, run, k).store.bonds == 0
    ensures exists k :: i < k <= j && At(s, run, k).scan.devs == []
  {
    StillOwes(s, run, i, j);
    var t := At(s, run, j);
    if OwesClear(t.pc) || OwesReset(t.pc) {
      OwesStep(t, run[j]);
    }
    NothingLeft(s, run, i, j);
  }

  /** The store is then really without bonds at some moment, and the list without devices. */
  lemma NothingLeft(s: Host, run: seq<Action>, i: nat, j: nat)
    requires i <= j <= |run| && Cleared(s, run, i, j) && Emptied(s, run, i, j)
    ensures exists k :: i < k <= j && At(s, run, k).store.bonds == 0
    ensures exists k :: i < k <= j && At(s, run, k).scan.devs == []
  {
    hide At, Next, ClearsBonds, ResetsList;
    var c :| i <= c < j && ClearsBonds(At(s, run, c), run[c]);
    var e :| i <= e < j && ResetsList(At(s, run, e), run[e]);
    AtNext(s, run, c);
    AtNext(s, run, e);
    RepairEffects(At(s, run, c), run[c]);
    RepairEffects(At(s, run, e), run[e]);
    assert At(s, run, c + 1).store.bonds == 0 && At(s, run, e + 1).scan.devs == [];
  }


  // ---- a request served outside the scan loop also forgets the open device ----

  predicate OwesForget(pc: Pc) {
    pc == PairClear || pc == PairForget || pc == ConnectAbort || pc == LinkClose
  }

  lemma ForgetStep(s: Host, a: Action)
    ensures Consumes(s, a) && s.pc != ScanReceive ==> OwesForget(Next(s, a).pc)
    ensures OwesForget(s.pc) && !ForgetsDevice(s, a) ==> OwesForget(Next(s, a).pc)
    ensures OwesForget(s.pc) ==> Reported(s, a) == None
    ensures ForgetsDevice(s, a) ==> !Next(s, a).store.hidhDev
  {
  }

  predicate Forgotten(s: Host, run: seq<Action>, i: nat, j: nat)
    requires i <= j <= |run|
  {
    exists k :: i <= k < j && ForgetsDevice(At(s, run, k), run[k])
  }

  lemma ForgottenGrows(s: Host, run: seq<Action>, i: nat, j: nat)
    requires i <= j < |run|
    ensures Forgotten(s, run, i, j) || ForgetsDevice(At(s, run, j), run[j]) ==> Forgotten(s, run, i, j + 1)
  {
    hide At, ForgetsDevice;
  }

  lemma {:induction false} StillOwesForget(s: Host, run: seq<Action>, i: nat, j: nat)
    requires i < j <= |run| && Consumes(At(s, run, i), run[i]) && At(s, run, i).pc != ScanReceive
    ensures Forgotten(s, run, i, j) || OwesForget(At(s, run, j).pc)
  {
    hide At, Next, Consumes, OwesForget, ForgetsDevice, Forgotten, Reported;
    AtNext(s, run, j - 1);
    ForgetStep(At(s, run, j - 1), run[j - 1]);
    if j > i + 1 {
      StillOwesForget(s, run, i, j - 1);
      ForgottenGrows(s, run, i, j - 1);
    }
  }

  /** Before the next state is reported the device is forgotten. */
  lemma RepairForgetsDevice(s: Host, run: seq<Action>, i: nat, j: nat)
    requires i < j < |run| && Consumes(At(s, run, i), run[i]) && At(s, run, i).pc != ScanReceive
    requires Reported(At(s, run, j), run[j]).Some?
    ensures Forgotten(s, run, i, j)
  {
    hide At, Next, Consumes, OwesForget, ForgetsDevice, Forgotten, Reported;
    StillOwesForget(s, run, i, j);
    ForgetStep(At(s, run, j), run[j]);
  }

  lemma DeviceOnlyByOpen(s: Host, a: Action)
    requires !s.store.hidhDev && a != Env(OpenOk)
    ensures !Next(s, a).store.hidhDev
  {
  }

  /** Once forgotten, the device stays forgotten, so no light reconnect is tried, until a successful OPEN. */
  lemma {:induction false} ForgottenUntilOpen(s: Host, run: seq<Action>, i: nat, j: nat)
    requires i < j <= |run| && ForgetsDevice(At(s, run, i), run[i])
    requires forall k :: i < k < j ==> run[k] != Env(OpenOk)
    ensures !At(s, run, j).store.hidhDev
  {
    hide At, Next, Consumes, Reported;
    AtNext(s, run, j - 1);
    if j == i + 1 {
      ForgetStep(At(s, run, i), run[i]);
    } else {
      ForgottenUntilOpen(s, run, i, j - 1);
      DeviceOnlyByOpen(At(s, run, j - 1), run[j - 1]);
    }
  }

  /** Clearing and emptying do what they say. */
  lemma RepairEffects(s: Host, a: Action)
    ensures ClearsBonds(s, a) ==> Next(s, a).store.bonds == 0
    ensures ResetsList(s, a) ==> Next(s, a).scan.devs == []
  {
    if ClearsBonds(s, a) {
    } else if ResetsList(s, a) {
    }
  }

  // ---- a request at the head of the queue is served in time ----

  /** An upper bound on the main steps left before a request at the head of the queue is taken. */
  function Rank(pc: Pc): nat {
    match pc
    case ReconnectPoll | ReconnectDelay | ScanReceive | ConnectPeek | LinkPeek => 1
    case BondedPeek | ScanPublish => 2
    case ScanStart => 3
    case PairAnnounce | TimeoutReset | RestartClear => 4
    case PairReset | TimeoutCancel | RestartReset => 5
    case PairForget | RestartCancel | ScanCheck => 6
    case PairClear => 7
    case Top | ConnectAbort | LinkClose => 8
    case LinkLost => 9
    case LinkWait => 10
    case Announce => 11
    case BondedGive | ConnectGive => 12
    case BondedTake | ConnectTake => 13
    case BondedWait | ConnectWait => 14
    case ReconnectTry | ConnectOpen(_) => 15
    case SelectRead(_) => 16
    case SelectCancel(_) => 17
    case ScanValidate(_) => 18
  }

  /** The scan could not be started and is tried again. */
  predicate ScanRefused(s: Host, a: Action) {
    a.Main? && s.pc == ScanStart && !a.oracle.yes
  }

  predicate Progress(s: Host, t: Host) {
    Rank(t.pc) < Rank(s.pc) && t.queue == s.queue
  }

  lemma ReconnectProgress(s: Host, o: Oracle)
    requires StartAtHead(s)
    ensures var t := ReconnectStep(s, o);
            t == s || Progress(s, t) || s.pc == ReconnectPoll || s.pc == ReconnectDelay
  {
  }

  lemma PairProgress(s: Host, o: Oracle)
    ensures var t := PairStep(s, o); t == s || Progress(s, t)
  {
  }

  lemma ScanProgress(s: Host, o: Oracle)
    ensures var t := ScanStep(s, o); t == s || Progress(s, t) || s.pc == ScanReceive
  {
  }

  lemma ConnectProgress(s: Host, o: Oracle)
    ensures var t := ConnectStep(s, o); t == s || Progress(s, t) || s.pc == ConnectPeek
  {
  }

  lemma LinkProgress(s: Host, o: Oracle)
    ensures var t := LinkStep(s, o); t == s || Progress(s, t) || s.pc == LinkPeek
  {
  }

  lemma MainMoves(s: Host, o: Oracle)
    requires StartAtHead(s) && !ScanRefused(s, Main(o))
    ensures MainStep(s, o).pc != s.pc
  {
  }

  lemma MainProgress(s: Host, o: Oracle)
    requires StartAtHead(s) && !Consumes(s, Main(o)) && !ScanRefused(s, Main(o))
    ensures Progress(s, MainStep(s, o))
  {
    hide Rank, Progress, ReconnectStep, PairStep, ScanStep, ConnectStep, LinkStep, ScanRefused;
    MainMoves(s, o);
    ReconnectProgress(s, o);
    PairProgress(s, o);
    ScanProgress(s, o);
    ConnectProgress(s, o);
    LinkProgress(s, o);
  }

  lemma RefusedStays(s: Host, a: Action)
    requires ScanRefused(s, a)
    ensures Next(s, a) == s && !Consumes(s, a)
  {
  }

  lemma EnvKeepsHead(s: Host, e: Event)
    requires StartAtHead(s)
    ensures StartAtHead(EnvStep(s, e)) && EnvStep(s, e).pc == s.pc
  {
  }

  /** How many main steps between i and j were refused scans. */
  function Refusals(s: Host, run: seq<Action>, i: nat, j: nat): nat
    requires i <= j <= |run|
  {
    if i == j then 0
    else Refusals(s, run, i, j - 1) + if ScanRefused(At(s, run, j - 1), run[j - 1]) then 1 else 0
  }

  predicate ServedBetween(s: Host, run: seq<Action>, i: nat, j: nat)
    requires i <= j <= |run|
  {
    exists k :: i <= k < j && Consumes(At(s, run, k), run[k])
  }

  lemma ServedGrows(s: Host, run: seq<Action>, i: nat, j: nat)
    requires i <= j < |run|
    ensures ServedBetween(s, run, i, j + 1) <==> ServedBetween(s, run, i, j) || Consumes(At(s, run, j), run[j])
  {
    hide At, Consumes;
  }

  lemma ServedNone(s: Host, run: seq<Action>, i: nat)
    requires i <= |run|
    ensures !ServedBetween(s, run, i, i)
  {
  }

  /** One step without serving the request: it stays at the head and the main steps still owed go down. */
  lemma WaitStep(s: Host, a: Action)
    requires StartAtHead(s) && !Consumes(s, a)
    ensures var t := Next(s, a);
            && StartAtHead(t)
            && Rank(t.pc) + (if a.Main? then 1 else 0) <= Rank(s.pc) + (if ScanRefused(s, a) then 1 else 0)
  {
    hide MainStep, EnvStep, Rank, ScanRefused;
    match a
    case Main(o) =>
      if ScanRefused(s, a) {
        RefusedStays(s, a);
      } else {
        MainProgress(s, o);
      }
    case Env(e) =>
      EnvKeepsHead(s, e);
  }

  lemma {:induction false} WaitRun(s: Host, run: seq<Action>, i: nat, j: nat)
    requires i <= j <= |run| && StartAtHead(At(s, run, i))
    ensures ServedBetween(s, run, i, j)
         || (&& StartAtHead(At(s, run, j))
             && Mains(run, i, j) + Rank(At(s, run, j).pc) <= Rank(At(s, run, i).pc) + Refusals(s, run, i, j))
  {
    hide At, Next, Rank, Consumes, ScanRefused, ServedBetween, StartAtHead;
    if i < j {
      WaitRun(s, run, i, j - 1);
      AtNext(s, run, j - 1);
      ServedGrows(s, run, i, j - 1);
      var t, a := At(s, run, j - 1), run[j - 1];
      if StartAtHead(t) && !Consumes(t, a) {
        WaitStep(t, a);
      }
    }
  }

  /** A request at the head of the queue is served within 18 main steps and as many more as the stack refuses
      to start the scan, whatever the environment does in between. */
  lemma HeadIsServed(s: Host, run: seq<Action>, i: nat, j: nat)
    requires i <= j <= |run| && StartAtHead(At(s, run, i))
    requires Mains(run, i, j) >= 18 + Refusals(s, run, i, j)
    ensures ServedBetween(s, run, i, j)
  {
    hide At, Rank;
    WaitRun(s, run, i, j);
    RankBounds(At(s, run, i).pc);
    RankBounds(At(s, run, j).pc);
  }

  lemma RankBounds(pc: Pc)
    ensures 1 <= Rank(pc) <= 18
  {
  }

  /** In the reconnect phase a request need not be at the head: the commands before it are dropped. */
  predicate InReconnectWait(s: Host) {
    (s.pc == ReconnectPoll || s.pc == ReconnectDelay) && FirstStart(s.queue) < |s.queue|
  }

  lemma {:induction false} FirstStartAppend(q: seq<Command>, c: Command)
    requires FirstStart(q) < |q|
    ensures FirstStart(q + [c]) == FirstStart(q)
  {
    if q[0] != StartPairing {
      assert (q + [c])[1..] == q[1..] + [c];
      FirstStartAppend(q[1..], c);
    }
  }

  lemma FirstStartTail(q: seq<Command>)
    requires FirstStart(q) < |q| && q[0] != StartPairing
    ensures FirstStart(q) == 1 + FirstStart(q[1..])
  {
  }

  lemma ReconnectWaitStep(s: Host, a: Action)
    requires InReconnectWait(s) && !Consumes(s, a)
    ensures var t := Next(s, a);
            InReconnectWait(t) && FirstStart(t.queue) + (if a.Main? then 1 else 0) == FirstStart(s.queue)
  {
    match a
    case Main(o) =>
      FirstStartTail(s.queue);
    case Env(e) =>
      hide FirstStart;
      FirstStartAppend(s.queue, StartPairing);
      match e
      case SendSelect(k) => FirstStartAppend(s.queue, SelectDevice(k));
      case _ =>
  }

  lemma {:induction false} ReconnectWaitRun(s: Host, run: seq<Action>, i: nat, j: nat)
    requires i <= j <= |run| && InReconnectWait(At(s, run, i))
    ensures ServedBetween(s, run, i, j)
         || (InReconnectWait(At(s, run, j))
             && Mains(run, i, j) + FirstStart(At(s, run, j).queue) == FirstStart(At(s, run, i).queue))
  {
    hide At, Next, FirstStart, Consumes, ServedBetween, InReconnectWait;
    if i < j {
      ReconnectWaitRun(s, run, i, j - 1);
      AtNext(s, run, j - 1);
      ServedGrows(s, run, i, j - 1);
      var t, a := At(s, run, j - 1), run[j - 1];
      if InReconnectWait(t) && !Consumes(t, a) {
        ReconnectWaitStep(t, a);
      }
    }
  }

  /** A request anywhere in the queue is served by the polls of the reconnect phase, after one main step for
      each command in front of it. */
  lemma ReconnectServesAny(s: Host, run: seq<Action>, i: nat, j: nat)
    requires i <= j <= |run| && InReconnectWait(At(s, run, i))
    requires Mains(run, i, j) > FirstStart(At(s, run, i).queue)
    ensures ServedBetween(s, run, i, j)
  {
    ReconnectWaitRun(s, run, i, j);
  }

  // ---- a served request takes effect in time, and is shown ----

  /** Main steps left before a served request has both cleared the bonds and emptied the list. */
  function RepairRank(pc: Pc): nat {
    match pc
    case ConnectAbort | LinkClose => 4
    case PairClear | RestartCancel => 3
    case PairForget | RestartReset => 2
    case PairReset | RestartClear => 1
    case _ => 0
  }

  lemma MainRepairs(s: Host, o: Oracle)
    requires OwesClear(s.pc) || OwesReset(s.pc)
    ensures var t := MainStep(s, o);
            && RepairRank(t.pc) + 1 == RepairRank(s.pc)
            && (RepairRank(t.pc) > 0 ==> OwesClear(t.pc) || OwesReset(t.pc))
  {
    hide ReconnectStep, ScanStep;
  }

  lemma RepairStep(s: Host, a: Action)
    requires OwesClear(s.pc) || OwesReset(s.pc)
    ensures RepairRank(Next(s, a).pc) + (if a.Main? then 1 else 0) == RepairRank(s.pc)
    ensures RepairRank(Next(s, a).pc) > 0 ==> OwesClear(Next(s, a).pc) || OwesReset(Next(s, a).pc)
  {
    hide MainStep, EnvStep, OwesClear, OwesReset, RepairRank;
    match a
    case Main(o) => MainRepairs(s, o);
    case Env(e) => EnvKeepsQueue(s, e);
  }

  lemma RepairRankBounds(pc: Pc)
    ensures RepairRank(pc) <= 4
    ensures RepairRank(pc) == 0 ==> !OwesClear(pc) && !OwesReset(pc)
  {
  }

  lemma {:induction false} RepairRun(s: Host, run: seq<Action>, i: nat, j: nat)
    requires i < j <= |run| && Consumes(At(s, run, i), run[i])
    ensures Mains(run, i + 1, j) + RepairRank(At(s, run, j).pc) <= 4
         || (exists k :: i < k <= j && RepairRank(At(s, run, k).pc) == 0)
  {
    hide At, Next, Consumes, RepairRank, OwesClear, OwesReset;
    if j == i + 1 {
      RepairRankBounds(At(s, run, j).pc);
    } else {
      RepairRun(s, run, i, j - 1);
      StillOwes(s, run, i, j - 1);
      AtNext(s, run, j - 1);
      var t, a := At(s, run, j - 1), run[j - 1];
      if OwesClear(t.pc) || OwesReset(t.pc) {
        RepairStep(t, a);
      } else {
        RepairDone(s, run, i, j - 1);
      }
    }
  }

  lemma {:induction false} RepairDone(s: Host, run: seq<Action>, i: nat, j: nat)
    requires i < j <= |run| && Consumes(At(s, run, i), run[i])
    requires !OwesClear(At(s, run, j).pc) && !OwesReset(At(s, run, j).pc)
    ensures exists k :: i < k <= j && RepairRank(At(s, run, k).pc) == 0
  {
    assert RepairRank(At(s, run, j).pc) == 0;
  }

  /** Four main steps after a request is served the bonds have been cleared and the list emptied. */
  lemma RepairInFourSteps(s: Host, run: seq<Action>, i: nat, j: nat)
    requires i < j <= |run| && Consumes(At(s, run, i), run[i])
    requires Mains(run, i + 1, j) >= 4
    ensures Cleared(s, run, i, j) && Emptied(s, run, i, j)
  {
    hide At, Next, Consumes, RepairRank, OwesClear, OwesReset, ClearsBonds, ResetsList;
    RepairRun(s, run, i, j);
    var k := j;
    if RepairRank(At(s, run, j).pc) != 0 {
      k :| i < k <= j && RepairRank(At(s, run, k).pc) == 0;
    }
    RepairRankBounds(At(s, run, k).pc);
    StillOwes(s, run, i, k);
  }

  /** The request was served inside the scan loop, and the scan has not been started again. */
  predicate Silent(pc: Pc) {
    pc == RestartCancel || pc == RestartReset || pc == RestartClear
  }

  /** The request was served elsewhere, and SCANNING has not been shown yet. */
  predicate Unshown(pc: Pc) {
    pc == PairClear || pc == PairForget || pc == PairReset || pc == PairAnnounce
    || pc == ConnectAbort || pc == LinkClose
  }

  predicate ShownBetween(s: Host, run: seq<Action>, i: nat, j: nat)
    requires i <= j <= |run|
  {
    exists k :: i <= k < j && StatusShown(At(s, run, k), run[k]) == Some(Scanning)
  }

  lemma ShownGrows(s: Host, run: seq<Action>, i: nat, j: nat)
    requires i <= j < |run|
    ensures ShownBetween(s, run, i, j + 1) <==>
              ShownBetween(s, run, i, j) || StatusShown(At(s, run, j), run[j]) == Some(Scanning)
  {
    hide At, StatusShown;
  }

  lemma ServeStep(s: Host, a: Action)
    requires Consumes(s, a)
    ensures StatusShown(s, a) == None
    ensures if s.pc == ScanReceive then Silent(Next(s, a).pc) else Unshown(Next(s, a).pc)
  {
  }

  lemma SilentStep(s: Host, a: Action)
    requires Silent(s.pc)
    ensures StatusShown(s, a) == None
    ensures Silent(Next(s, a).pc) || Next(s, a).pc == ScanStart
  {
  }

  lemma UnshownStep(s: Host, a: Action)
    requires Unshown(s.pc)
    ensures StatusShown(s, a) == Some(Scanning) || (StatusShown(s, a) == None && Unshown(Next(s, a).pc))
  {
  }

  lemma {:induction false} ShownRun(s: Host, run: seq<Action>, i: nat, j: nat)
    requires i < j <= |run| && Consumes(At(s, run, i), run[i])
    requires forall k :: i < k < j ==> At(s, run, k).pc != ScanStart
    ensures if At(s, run, i).pc == ScanReceive
            then !ShownBetween(s, run, i, j) && (Silent(At(s, run, j).pc) || At(s, run, j).pc == ScanStart)
            else ShownBetween(s, run, i, j) || Unshown(At(s, run, j).pc)
  {
    hide At, Next, Consumes, StatusShown, Silent, Unshown, ShownBetween;
    AtNext(s, run, j - 1);
    ShownGrows(s, run, i, j - 1);
    var t, a := At(s, run, j - 1), run[j - 1];
    if j == i + 1 {
      ServeStep(t, a);
      ShownNone(s, run, i);
    } else {
      ShownRun(s, run, i, j - 1);
      if Silent(t.pc) {
        SilentStep(t, a);
      }
      if Unshown(t.pc) {
        UnshownStep(t, a);
      }
    }
  }

  lemma ShownNone(s: Host, run: seq<Action>, i: nat)
    requires i <= |run|
    ensures !ShownBetween(s, run, i, i)
  {
  }

  /** When the scan starts again after a request, on_status has been called with SCANNING exactly if the
      request was not served inside the scan loop. */
  lemma RequestShownUnlessScanning(s: Host, run: seq<Action>, i: nat, j: nat)
    requires i < j <= |run| && Consumes(At(s, run, i), run[i]) && At(s, run, j).pc == ScanStart
    requires forall k :: i < k < j ==> At(s, run, k).pc != ScanStart
    ensures ShownBetween(s, run, i, j) <==> At(s, run, i).pc != ScanReceive
  {
    ShownRun(s, run, i, j);
  }

  // ---- a request behind another command waits ----

  datatype Loop = NoLoop | LinkLoop | ConnectLoop | BondedLoop

  /** The loops that look only at the head of the queue, with nothing pending that would end them. Once a selection in
      range has been taken the main task is on its way into the second. */
  function LoopOf(s: Host): Loop {
    match s.pc
    case ScanValidate(k) => if 0 <= k < |s.scan.devs| then ConnectLoop else NoLoop
    case SelectCancel(_) | SelectRead(_) | ConnectOpen(_) => ConnectLoop
    case LinkWait | LinkPeek => if s.link.disconnected then NoLoop else LinkLoop
    case ConnectWait | ConnectPeek => if s.link.openDone then NoLoop else ConnectLoop
    case BondedWait | BondedPeek => if s.link.openDone then NoLoop else BondedLoop
    case _ => NoLoop
  }

  /** An action that does not end a loop: no CLOSE while connected, no OPEN result and no deadline while
      connecting. */
  predicate Undisturbed(l: Loop, a: Action) {
    if l == LinkLoop then a != Env(Close)
    else a != Env(OpenOk) && a != Env(OpenFailed) && !(a.Main? && a.oracle.expired)
  }

  predicate AllUndisturbed(l: Loop, run: seq<Action>, i: nat, j: nat)
    requires i <= j <= |run|
  {
    forall k :: i <= k < j ==> Undisturbed(l, run[k])
  }

  /** In such a loop with a command other than StartPairing at the head. */
  predicate Blocked(s: Host) {
    LoopOf(s) != NoLoop && s.queue != [] && s.queue[0] != StartPairing
  }

  lemma MainBlocked(s: Host, o: Oracle)
    requires Blocked(s) && Undisturbed(LoopOf(s), Main(o))
    ensures var t := MainStep(s, o); Blocked(t) && LoopOf(t) == LoopOf(s) && t.queue == s.queue
  {
    hide PairStep;
  }

  lemma CollectGrows(list: seq<Device>, a: Advert)
    ensures |list| <= |Collect(list, a)|
  {
  }

  lemma EnvKeepsLoop(s: Host, e: Event)
    requires LoopOf(s) != NoLoop && Undisturbed(LoopOf(s), Env(e))
    ensures LoopOf(EnvStep(s, e)) == LoopOf(s)
  {
    hide Collect;
    match e
    case Discovery(a) => CollectGrows(s.scan.devs, a);
    case _ =>
  }

  lemma EnvKeepsQueue(s: Host, e: Event)
    ensures s.queue <= EnvStep(s, e).queue && EnvStep(s, e).pc == s.pc
    ensures |s.queue| >= CAPACITY ==> EnvStep(s, e).queue == s.queue
  {
    hide Collect;
  }

  lemma BlockedStep(s: Host, a: Action)
    requires Blocked(s) && Undisturbed(LoopOf(s), a)
    ensures var t := Next(s, a); Blocked(t) && LoopOf(t) == LoopOf(s) && s.queue <= t.queue && !Consumes(s, a)
    ensures |s.queue| >= CAPACITY ==> Next(s, a).queue == s.queue
  {
    hide MainStep, EnvStep, LoopOf, Undisturbed;
    match a
    case Main(o) => MainBlocked(s, o);
    case Env(e) =>
      EnvKeepsLoop(s, e);
      EnvKeepsQueue(s, e);
  }

  /** While a loop goes on, a request queued behind another command is never served, however long the main task runs:
      the loop only looks at the head. The whole queue stays. */
  lemma {:induction false} RequestBehindSelectionWaits(s: Host, run: seq<Action>, i: nat, j: nat)
    requires i <= j <= |run| && Blocked(At(s, run, i))
    requires AllUndisturbed(LoopOf(At(s, run, i)), run, i, j)
    ensures Blocked(At(s, run, j)) && LoopOf(At(s, run, j)) == LoopOf(At(s, run, i))
    ensures At(s, run, i).queue <= At(s, run, j).queue
    ensures !ServedBetween(s, run, i, j)
  {
    hide At, Next, Blocked, LoopOf, Consumes, ServedBetween, Undisturbed;
    if i == j {
      ServedNone(s, run, i);
    } else {
      RequestBehindSelectionWaits(s, run, i, j - 1);
      AtNext(s, run, j - 1);
      BlockedStep(At(s, run, j - 1), run[j - 1]);
      ServedGrows(s, run, i, j - 1);
    }
  }

  /** A request is refused, and the caller not told, exactly when four commands are queued. */
  lemma RefusedIffFull(s: Host)
    ensures EnvStep(s, SendStart) == s <==> |s.queue| >= CAPACITY
  {
  }

  /** With four commands queued and another one than StartPairing at the head, a loop refuses every request as long
      as it goes on. */
  lemma {:induction false} FullLoopRefuses(s: Host, run: seq<Action>, i: nat, j: nat)
    requires i <= j <= |run| && Blocked(At(s, run, i)) && |At(s, run, i).queue| >= CAPACITY
    requires AllUndisturbed(LoopOf(At(s, run, i)), run, i, j)
    ensures At(s, run, j).queue == At(s, run, i).queue
    ensures forall k :: i <= k < j && run[k] == Env(SendStart) ==> At(s, run, k + 1) == At(s, run, k)
  {
    hide At, Next, Blocked, LoopOf, Undisturbed, Consumes;
    if i < j {
      FullLoopRefuses(s, run, i, j - 1);
      RequestBehindSelectionWaits(s, run, i, j - 1);
      AtNext(s, run, j - 1);
      BlockedStep(At(s, run, j - 1), run[j - 1]);
      if run[j - 1] == Env(SendStart) {
        RefusedSend(At(s, run, j - 1));
      }
    }
  }

  lemma RefusedSend(s: Host)
    requires |s.queue| >= CAPACITY
    ensures Next(s, Env(SendStart)) == s
  {
    RefusedIffFull(s);
  }

  /** Main steps left before a request at the head is served, while nothing ends the loop. */
  function LoopRank(pc: Pc): nat {
    match pc
    case ScanValidate(_) => 6
    case SelectCancel(_) => 5
    case SelectRead(_) => 4
    case ConnectOpen(_) | BondedWait => 3
    case LinkWait | ConnectWait | BondedPeek => 2
    case LinkPeek | ConnectPeek | ReconnectDelay => 1
    case _ => 0
  }

  /** Past the loop of bonded devices the request is served in the delay. */
  predicate Serving(l: Loop, s: Host) {
    StartAtHead(s) && (LoopOf(s) == l != NoLoop || (l == BondedLoop && s.pc == ReconnectDelay))
  }

  lemma MainServing(l: Loop, s: Host, o: Oracle)
    requires Serving(l, s) && Undisturbed(l, Main(o)) && !Consumes(s, Main(o))
    ensures var t := MainStep(s, o); Serving(l, t) && LoopRank(t.pc) + 1 == LoopRank(s.pc)
  {
    hide PairStep;
  }

  lemma EnvServing(l: Loop, s: Host, e: Event)
    requires Serving(l, s) && Undisturbed(l, Env(e))
    ensures var t := EnvStep(s, e); Serving(l, t) && t.pc == s.pc
  {
    EnvKeepsQueue(s, e);
    if LoopOf(s) == l {
      EnvKeepsLoop(s, e);
    }
    hide EnvStep, LoopOf, Undisturbed;
  }

  lemma ServingStep(l: Loop, s: Host, a: Action)
    requires Serving(l, s) && Undisturbed(l, a) && !Consumes(s, a)
    ensures var t := Next(s, a);
            Serving(l, t) && LoopRank(t.pc) + (if a.Main? then 1 else 0) == LoopRank(s.pc)
  {
    hide MainStep, EnvStep, Serving, Undisturbed, LoopRank;
    match a
    case Main(o) => MainServing(l, s, o);
    case Env(e) => EnvServing(l, s, e);
  }

  lemma LoopRankBounds(l: Loop, s: Host)
    requires Serving(l, s)
    ensures 1 <= LoopRank(s.pc) <= 6
  {
  }

  lemma {:induction false} ServingRun(l: Loop, s: Host, run: seq<Action>, i: nat, j: nat)
    requires i <= j <= |run| && Serving(l, At(s, run, i)) && AllUndisturbed(l, run, i, j)
    ensures ServedBetween(s, run, i, j)
         || (&& Serving(l, At(s, run, j))
             && Mains(run, i, j) + LoopRank(At(s, run, j).pc) == LoopRank(At(s, run, i).pc))
  {
    hide At, Next, Serving, Consumes, ServedBetween, Undisturbed, LoopRank;
    if i < j {
      ServingRun(l, s, run, i, j - 1);
      AtNext(s, run, j - 1);
      ServedGrows(s, run, i, j - 1);
      var t, a := At(s, run, j - 1), run[j - 1];
      if Serving(l, t) && !Consumes(t, a) {
        ServingStep(l, t, a);
      }
    }
  }

  lemma HeadCases(s: Host)
    requires LoopOf(s) != NoLoop && s.queue != []
    ensures if StartAtHead(s) then Serving(LoopOf(s), s) else Blocked(s)
  {
  }

  /** The exact condition for a re-pair request to work while CONNECTED, CONNECTING or reconnecting to a bonded device,
      and already when the selection before it is taken up by the scan loop, as long as nothing else ends the loop:
      within LoopRank main steps, six at most, a request is served exactly when it is at the head of the queue. */
  lemma ServedIffAtHead(s: Host, run: seq<Action>, i: nat, j: nat)
    requires i <= j <= |run| && At(s, run, i).queue != [] && LoopOf(At(s, run, i)) != NoLoop
    requires AllUndisturbed(LoopOf(At(s, run, i)), run, i, j) && Mains(run, i, j) >= LoopRank(At(s, run, i).pc)
    ensures LoopRank(At(s, run, i).pc) <= 6
    ensures ServedBetween(s, run, i, j) <==> StartAtHead(At(s, run, i))
  {
    var t := At(s, run, i);
    HeadCases(t);
    LoopRankAtMost(t.pc);
    hide At, LoopOf, Serving, Blocked, StartAtHead, ServedBetween, AllUndisturbed, LoopRank;
    if StartAtHead(t) {
      ServingRun(LoopOf(t), s, run, i, j);
      if Serving(LoopOf(t), At(s, run, j)) {
        LoopRankBounds(LoopOf(t), At(s, run, j));
      }
    } else {
      RequestBehindSelectionWaits(s, run, i, j);
    }
  }

  lemma LoopRankAtMost(pc: Pc)
    ensures LoopRank(pc) <= 6
  {
  }

  // ---- the polls of the reconnect phase are the wait of the queue ----

  /** Some main steps with no sends in between. */
  predicate AllMain(run: seq<Action>) {
    forall k :: 0 <= k < |run| ==> run[k].Main?
  }

  lemma MainAt(run: seq<Action>, k: nat)
    requires AllMain(run) && k < |run|
    ensures run[k].Main?
  {
  }

  lemma PollStep(s: Host, a: Action)
    requires s.pc == ReconnectPoll && a.Main?
    ensures Next(s, a).queue == if s.queue == [] then [] else s.queue[1..]
    ensures Next(s, a).pc
         == if s.queue == [] then ReconnectTry else if s.queue[0] == StartPairing then PairClear else ReconnectPoll
  {
    hide PairStep, ScanStep, ConnectStep, LinkStep;
  }

  lemma {:induction false} PollPrefix(s: Host, run: seq<Action>, k: nat)
    requires s.pc == ReconnectPoll && AllMain(run) && k <= |run| && k <= FirstStart(s.queue)
    ensures At(s, run, k).pc == ReconnectPoll && At(s, run, k).queue == s.queue[k..]
  {
    hide *;
    if k == 0 {
      AtStart(s, run);
    } else {
      PollPrefix(s, run, k - 1);
      AtNext(s, run, k - 1);
      MainAt(run, k - 1);
      PollOn(s.queue, At(s, run, k - 1), run[k - 1], k - 1);
    }
  }

  lemma PollOn(q: seq<Command>, t: Host, a: Action, k: nat)
    requires t.pc == ReconnectPoll && a.Main? && k < FirstStart(q) && t.queue == q[k..]
    ensures Next(t, a).pc == ReconnectPoll && Next(t, a).queue == q[k + 1..]
  {
    PollStep(t, a);
    hide Next;
    assert q[k..][1..] == q[k + 1..] && q[k..][0] == q[k];
  }


  /** Polling until the phase is left finds a request, and leaves the queue, exactly as
      CommandQueue.Queue.WaitForStartPairing does. */
  lemma PollsAreTheWait(s: Host, run: seq<Action>)
    requires s.pc == ReconnectPoll && AllMain(run) && |run| == FirstStart(s.queue) + 1
    ensures var q, t := s.queue, At(s, run, |run|);
            if StartPairing in q then t.pc == PairClear && t.queue == q[FirstStart(q) + 1..]
            else t.pc == ReconnectTry && t.queue == []
  {
    var n := FirstStart(s.queue);
    PollPrefix(s, run, n);
    AtNext(s, run, n);
    PollLast(s.queue, At(s, run, n), run[n]);
    hide *;
  }

  lemma PollLast(q: seq<Command>, t: Host, a: Action)
    requires t.pc == ReconnectPoll && a.Main? && t.queue == q[FirstStart(q)..]
    ensures var u := Next(t, a);
            if StartPairing in q then u.pc == PairClear && u.queue == q[FirstStart(q) + 1..]
            else u.pc == ReconnectTry && u.queue == []
  {
    PollStep(t, a);
    hide Next;
    var n := FirstStart(q);
    if n < |q| {
      assert q[n..][1..] == q[n + 1..] && q[n..][0] == StartPairing;
    }
  }

  lemma DelayStep(s: Host, a: Action)
    requires s.pc == ReconnectDelay && a.Main?
    ensures Next(s, a).queue == if s.queue == [] then [] else s.queue[1..]
    ensures Next(s, a).pc
         == if s.queue == [] then (if a.oracle.expired then ReconnectPoll else ReconnectDelay)
            else if s.queue[0] == StartPairing then PairClear else ReconnectDelay
  {
    hide PairStep, ScanStep, ConnectStep, LinkStep;
  }

  lemma {:induction false} DelayPrefix(s: Host, run: seq<Action>, k: nat)
    requires s.pc == ReconnectDelay && AllMain(run) && k <= |run| && k <= FirstStart(s.queue)
    ensures At(s, run, k).pc == ReconnectDelay && At(s, run, k).queue == s.queue[k..]
  {
    hide *;
    if k == 0 {
      AtStart(s, run);
    } else {
      DelayPrefix(s, run, k - 1);
      AtNext(s, run, k - 1);
      MainAt(run, k - 1);
      DelayOn(s.queue, At(s, run, k - 1), run[k - 1], k - 1);
    }
  }

  lemma DelayOn(q: seq<Command>, t: Host, a: Action, k: nat)
    requires t.pc == ReconnectDelay && a.Main? && k < FirstStart(q) && t.queue == q[k..]
    ensures Next(t, a).pc == ReconnectDelay && Next(t, a).queue == q[k + 1..]
  {
    DelayStep(t, a);
    hide Next;
    assert q[k..][1..] == q[k + 1..] && q[k..][0] == q[k];
  }


  /** With the queue empty the delay goes on until its deadline. */
  lemma {:induction false} DelayGoesOn(s: Host, run: seq<Action>, n: nat, k: nat)
    requires n <= k <= |run|
    requires At(s, run, n).pc == ReconnectDelay && At(s, run, n).queue == []
    requires forall i :: n <= i < k ==> run[i].Main? && !run[i].oracle.expired
    ensures At(s, run, k).pc == ReconnectDelay && At(s, run, k).queue == []
  {
    hide *;
    if n < k {
      DelayGoesOn(s, run, n, k - 1);
      AtNext(s, run, k - 1);
      DelayStep(At(s, run, k - 1), run[k - 1]);
    }
  }

  /** The delay between two attempts is the same wait with a deadline: a request in the queue is found after as many
      main steps as there are commands up to it, leaving what follows; otherwise the queue is emptied and the first main
      step after that to find the deadline passed ends the delay. */
  lemma DelayIsTheWait(s: Host, run: seq<Action>)
    requires s.pc == ReconnectDelay && AllMain(run)
    ensures var q, t, n := s.queue, At(s, run, |run|), FirstStart(s.queue);
            && (StartPairing in q && |run| == n + 1 ==> t.pc == PairClear && t.queue == q[n + 1..])
            && (StartPairing !in q && LateOnlyLast(run, n) ==> t.pc == ReconnectPoll && t.queue == [])
  {
    var n := FirstStart(s.queue);
    hide *;
    if StartPairing in s.queue && |run| == n + 1 {
      DelayFinds(s, run);
    } else if StartPairing !in s.queue && LateOnlyLast(run, n) {
      DelayEmpties(s, run);
      DelayExpires(s, run, n);
    }
  }

  lemma DelayFinds(s: Host, run: seq<Action>)
    requires s.pc == ReconnectDelay && AllMain(run) && StartPairing in s.queue && |run| == FirstStart(s.queue) + 1
    ensures var t := At(s, run, |run|);
            t.pc == PairClear && t.queue == s.queue[FirstStart(s.queue) + 1..]
  {
    hide *;
    var n := FirstStart(s.queue);
    DelayPrefix(s, run, n);
    AtNext(s, run, n);
    MainAt(run, n);
    DelayFound(s.queue, At(s, run, n), run[n]);
  }

  lemma DelayEmpties(s: Host, run: seq<Action>)
    requires s.pc == ReconnectDelay && StartPairing !in s.queue && LateOnlyLast(run, FirstStart(s.queue))
    ensures At(s, run, FirstStart(s.queue)).pc == ReconnectDelay && At(s, run, FirstStart(s.queue)).queue == []
  {
    hide At;
    DelayPrefix(s, run, FirstStart(s.queue));
    NoneFound(s.queue);
  }

  lemma DelayExpires(s: Host, run: seq<Action>, n: nat)
    requires LateOnlyLast(run, n) && At(s, run, n).pc == ReconnectDelay && At(s, run, n).queue == []
    ensures At(s, run, |run|).pc == ReconnectPoll && At(s, run, |run|).queue == []
  {
    hide At, Next;
    var last := |run| - 1;
    DelayGoesOn(s, run, n, last);
    AtNext(s, run, last);
    DelayStep(At(s, run, last), run[last]);
  }

  /** Among the steps from n on, the last one is the first to find the deadline passed. */
  predicate LateOnlyLast(run: seq<Action>, n: nat) {
    && n < |run| && AllMain(run) && run[|run| - 1].oracle.expired
    && (forall i :: n <= i < |run| - 1 ==> !run[i].oracle.expired)
  }

  lemma NoneFound(q: seq<Command>)
    requires StartPairing !in q
    ensures FirstStart(q) == |q| && q[FirstStart(q)..] == []
  {
  }

  lemma DelayFound(q: seq<Command>, t: Host, a: Action)
    requires t.pc == ReconnectDelay && a.Main? && StartPairing in q && t.queue == q[FirstStart(q)..]
    ensures Next(t, a).pc == PairClear && Next(t, a).queue == q[FirstStart(q) + 1..]
  {
    DelayStep(t, a);
    hide Next;
    var n := FirstStart(q);
    assert q[n..][1..] == q[n + 1..] && q[n..][0] == StartPairing;
  }
}
