/** Safety of the keyboard host over all runs: what every interleaving keeps. */
module HostSafety {
  import opened HidTypes
  import opened ScanList
  import opened CommandQueue
  import opened HostMachine

  // ---- the inductive invariant ----

  predicate ScanPc(pc: Pc) {
    pc.ScanPublish? || pc.ScanReceive? || pc.ScanValidate? || pc.ScanCheck?
    || pc.TimeoutCancel? || pc.RestartCancel? || pc.SelectCancel?
  }

  /** The states that may be shown while the main task is at a place. */
  predicate Shows(pc: Pc, st: KbdState) {
    match pc
    case Top => st == Idle || st == Reconnecting
    case ReconnectPoll | ReconnectTry | BondedWait | BondedPeek | BondedTake | BondedGive | ReconnectDelay =>
      st == Reconnecting
    case PairClear | PairForget | PairReset | PairAnnounce => st != Scanning
    case ConnectOpen(_) | ConnectWait | ConnectPeek | ConnectAbort | ConnectTake | ConnectGive => st == Connecting
    case Announce => st == Connecting || st == Reconnecting
    case LinkWait | LinkPeek | LinkClose | LinkLost => st == Connected
    case _ => st == Scanning
  }

  predicate IndexInRange(s: Host) {
    && (s.pc.SelectCancel? ==> 0 <= s.pc.k < |s.scan.devs|)
    && (s.pc.SelectRead? ==> 0 <= s.pc.k < |s.scan.devs|)
  }

  /** The main task's place agrees with the state shown, the scan and the selected index. */
  predicate InPlace(s: Host) {
    && (s.scan.active <==> ScanPc(s.pc))
    && Shows(s.pc, s.state)
    && IndexInRange(s)
  }

  predicate Inv(s: Host) {
    |s.queue| <= CAPACITY && WellFormed(s.scan.devs) && InPlace(s)
  }

  lemma InvInitial(s: Host)
    requires Initial(s)
    ensures Inv(s)
  {
  }

  /** A main step keeps the list or empties it. */
  lemma MainList(s: Host, o: Oracle)
    ensures MainStep(s, o).scan.devs == s.scan.devs || MainStep(s, o).scan.devs == []
  {
  }

  /** A main step never lengthens the queue. */
  lemma MainQueueLength(s: Host, o: Oracle)
    ensures |MainStep(s, o).queue| <= |s.queue|
  {
  }

  lemma ReconnectInPlace(s: Host, o: Oracle)
    requires InPlace(s)
    ensures InPlace(ReconnectStep(s, o))
  {
  }

  lemma PairInPlace(s: Host, o: Oracle)
    requires InPlace(s)
    ensures InPlace(PairStep(s, o))
  {
  }

  lemma ScanInPlace(s: Host, o: Oracle)
    requires InPlace(s)
    ensures InPlace(ScanStep(s, o))
  {
  }

  lemma ConnectInPlace(s: Host, o: Oracle)
    requires InPlace(s)
    ensures InPlace(ConnectStep(s, o))
  {
  }

  lemma LinkInPlace(s: Host, o: Oracle)
    requires InPlace(s)
    ensures InPlace(LinkStep(s, o))
  {
  }

  lemma MainInPlace(s: Host, o: Oracle)
    requires InPlace(s)
    ensures InPlace(MainStep(s, o))
  {
    hide InPlace, ReconnectStep, PairStep, ScanStep, ConnectStep, LinkStep;
    ReconnectInPlace(s, o);
    PairInPlace(s, o);
    ScanInPlace(s, o);
    ConnectInPlace(s, o);
    LinkInPlace(s, o);
  }

  lemma InvStep(s: Host, a: Action)
    requires Inv(s)
    ensures Inv(Next(s, a))
  {
    match a
    case Main(o) =>
      hide MainStep, WellFormed, InPlace;
      MainList(s, o);
      MainQueueLength(s, o);
      MainInPlace(s, o);
      EmptyWellFormed();
    case Env(e) =>
      hide WellFormed, Shows, ScanPc, Collect;
      match e
      case Discovery(d) => CollectKeeps(s.scan.devs, d);
      case _ =>
  }

  lemma EmptyWellFormed()
    ensures WellFormed([])
  {
  }

  /** In every reachable state: at most four commands queued, at most eight devices with distinct addresses
      and terminated names, scanning exactly inside the scan loop, and a selected index always in range. */
  lemma {:induction false} Reachable(s: Host, run: seq<Action>, i: nat)
    requires Inv(s) && i <= |run|
    ensures Inv(At(s, run, i))
  {
    hide *;
    if i == 0 {
      AtStart(s, run);
    } else {
      Reachable(s, run, i - 1);
      AtNext(s, run, i - 1);
      InvStep(At(s, run, i - 1), run[i - 1]);
    }
  }

  // ---- the states reported ----

  predicate Edge(from: KbdState, to: KbdState) {
    match from
    case Idle => to == Reconnecting || to == Scanning
    case Reconnecting => to == Reconnecting || to == Connected || to == Scanning
    case Scanning => to == Connecting
    case Connecting => to == Connected || to == Scanning
    case Connected => to == Reconnecting || to == Scanning
  }

  lemma ReportStep(s: Host, a: Action)
    requires Inv(s)
    ensures match Reported(s, a)
            case Some(st) => Edge(s.state, st) && Next(s, a).state == st
            case None => Next(s, a).state == s.state
  {
    match a
    case Main(o) =>
      hide MainStep;
      MainState(s, o);
    case Env(e) =>
  }

  lemma MainState(s: Host, o: Oracle)
    ensures MainStep(s, o).state == match Reported(s, Main(o)) case Some(st) => st case None => s.state
  {
  }

  /** Every run walks the documented graph: each state reported follows the last one by an edge, and the
      state only changes by being reported. */
  lemma StateWalk(s: Host, run: seq<Action>, i: nat)
    requires Inv(s) && i < |run|
    ensures var t := At(s, run, i);
            match Reported(t, run[i])
            case Some(st) => Edge(t.state, st) && At(s, run, i + 1).state == st
            case None => At(s, run, i + 1).state == t.state
  {
    Reachable(s, run, i);
    ReportStep(At(s, run, i), run[i]);
  }

  /** The re-pair flag is only ever cleared. */
  lemma FlagStep(s: Host, a: Action)
    ensures Next(s, a).store.forceRepair ==> s.store.forceRepair
  {
  }

  lemma {:induction false} FlagNeverReturns(s: Host, run: seq<Action>, i: nat, j: nat)
    requires i <= j <= |run|
    ensures At(s, run, j).store.forceRepair ==> At(s, run, i).store.forceRepair
  {
    hide *;
    if i < j {
      FlagNeverReturns(s, run, i, j - 1);
      AtNext(s, run, j - 1);
      FlagStep(At(s, run, j - 1), run[j - 1]);
    }
  }

  /** Before anything is reported with the flag set, the main task is on its way to the scan. */
  predicate ForcedStart(s: Host) {
    s.state == Idle ==>
      || (s.pc == Top && s.store.forceRepair)
      || s.pc == PairClear || s.pc == PairForget || s.pc == PairReset || s.pc == PairAnnounce
  }

  lemma ForcedStep(s: Host, a: Action)
    requires Inv(s) && ForcedStart(s)
    ensures ForcedStart(Next(s, a))
    ensures s.state == Idle && Reported(s, a).Some? ==> Reported(s, a) == Some(Scanning)
  {
    ReportStep(s, a);
    hide WellFormed;
    match a
    case Main(o) =>
      if s.state != Idle {
        hide MainStep;
      }
    case Env(e) =>
  }

  lemma {:induction false} ForcedRun(s: Host, run: seq<Action>, i: nat)
    requires Inv(s) && ForcedStart(s) && i <= |run|
    ensures Inv(At(s, run, i)) && ForcedStart(At(s, run, i))
  {
    hide *;
    if i == 0 {
      AtStart(s, run);
    } else {
      ForcedRun(s, run, i - 1);
      AtNext(s, run, i - 1);
      InvStep(At(s, run, i - 1), run[i - 1]);
      ForcedStep(At(s, run, i - 1), run[i - 1]);
    }
  }

  /** Started with force_repair, whatever bonds are stored, the first state reported is SCANNING. */
  lemma ForcedStartScansFirst(s: Host, run: seq<Action>, i: nat)
    requires Initial(s) && s.store.forceRepair && i < |run|
    requires At(s, run, i).state == Idle && Reported(At(s, run, i), run[i]).Some?
    ensures Reported(At(s, run, i), run[i]) == Some(Scanning)
  {
    ForcedRun(s, run, i);
    ForcedStep(At(s, run, i), run[i]);
  }

  // ---- the connected token mirrors the link ----

  /** The main task has taken the connected token to test it and has not given it back yet. */
  predicate Testing(pc: Pc) {
    pc == BondedGive || pc == ConnectGive
  }

  /** Outside the test the token is present exactly when the link is up or the token is stale. */
  predicate Mirror(s: Host) {
    && (!Testing(s.pc) ==> (s.link.connected <==> s.link.up || s.link.stale))
    && (Testing(s.pc) ==> (s.link.connected ==> s.link.up))
    && (s.link.stale ==> !s.link.up)
  }

  /** What a main step does to the token: the test takes it and gives it back, nothing else touches it. */
  predicate TokenEffect(s: Host, t: Host) {
    && t.link.up == s.link.up
    && (if Testing(s.pc)
        then t.link.connected && t.link.stale == !s.link.up && !Testing(t.pc)
        else && t.link.stale == s.link.stale
             && (if Testing(t.pc) then s.link.connected && !t.link.connected else t.link.connected == s.link.connected))
  }

  lemma ReconnectToken(s: Host, o: Oracle)
    requires s.pc != ConnectGive
    ensures TokenEffect(s, ReconnectStep(s, o))
  {
  }

  lemma PairToken(s: Host, o: Oracle)
    requires !Testing(s.pc)
    ensures TokenEffect(s, PairStep(s, o))
  {
  }

  lemma ScanToken(s: Host, o: Oracle)
    requires !Testing(s.pc)
    ensures TokenEffect(s, ScanStep(s, o))
  {
  }

  lemma ConnectToken(s: Host, o: Oracle)
    requires s.pc != BondedGive
    ensures TokenEffect(s, ConnectStep(s, o))
  {
  }

  lemma LinkToken(s: Host, o: Oracle)
    requires !Testing(s.pc)
    ensures TokenEffect(s, LinkStep(s, o))
  {
  }

  lemma MainToken(s: Host, o: Oracle)
    ensures TokenEffect(s, MainStep(s, o))
  {
    hide TokenEffect, ReconnectStep, PairStep, ScanStep, ConnectStep, LinkStep;
    if s.pc != ConnectGive {
      ReconnectToken(s, o);
    }
    if s.pc != BondedGive {
      ConnectToken(s, o);
    }
    if !Testing(s.pc) {
      PairToken(s, o);
      ScanToken(s, o);
      LinkToken(s, o);
    }
  }

  lemma MirrorStep(s: Host, a: Action)
    requires Mirror(s)
    ensures Mirror(Next(s, a))
  {
    match a
    case Main(o) =>
      hide MainStep;
      MainToken(s, o);
    case Env(e) =>
      EnvMirrors(s, e);
  }

  lemma EnvMirrors(s: Host, e: Event)
    requires Mirror(s)
    ensures Mirror(EnvStep(s, e))
  {
    hide Collect;
  }

  /** In every reachable state of every run the token, outside the test, is the last event seen or stale. */
  lemma {:induction false} TokenMirrorsLink(s: Host, run: seq<Action>, i: nat)
    requires Mirror(s) && i <= |run|
    ensures Mirror(At(s, run, i))
  {
    hide *;
    if i == 0 {
      AtStart(s, run);
    } else {
      TokenMirrorsLink(s, run, i - 1);
      AtNext(s, run, i - 1);
      MirrorStep(At(s, run, i - 1), run[i - 1]);
    }
  }

  /** No CLOSE arrives between taking the connected token and giving it back. */
  predicate NoCloseWhileTesting(s: Host, run: seq<Action>) {
    forall i :: 0 <= i < |run| && run[i] == Env(Close) ==> !Testing(At(s, run, i).pc)
  }

  /** While no CLOSE falls into the test, nothing is stale, and during the test the link is up. */
  predicate Exact(s: Host) {
    Mirror(s) && !s.link.stale && (Testing(s.pc) ==> s.link.up)
  }

  lemma ExactStep(s: Host, a: Action)
    requires Exact(s) && (a == Env(Close) ==> !Testing(s.pc))
    ensures Exact(Next(s, a))
  {
    MirrorStep(s, a);
    match a
    case Main(o) =>
      hide MainStep;
      MainToken(s, o);
    case Env(e) =>
  }

  /** With the test uninterrupted the token is present exactly when the last event reporting a link was a
      successful OPEN, in every reachable state outside the test. */
  lemma {:induction false} TokenIsExact(s: Host, run: seq<Action>, i: nat)
    requires Exact(s) && NoCloseWhileTesting(s, run) && i <= |run|
    ensures Exact(At(s, run, i))
    ensures !Testing(At(s, run, i).pc) ==> (At(s, run, i).link.connected <==> At(s, run, i).link.up)
  {
    hide *;
    if i == 0 {
      AtStart(s, run);
    } else {
      TokenIsExact(s, run, i - 1);
      AtNext(s, run, i - 1);
      NoCloseAt(s, run, i - 1);
      ExactStep(At(s, run, i - 1), run[i - 1]);
    }
    ExactMeans(At(s, run, i));
  }

  lemma NoCloseAt(s: Host, run: seq<Action>, i: nat)
    requires NoCloseWhileTesting(s, run) && i < |run|
    ensures run[i] == Env(Close) ==> !Testing(At(s, run, i).pc)
  {
    hide At, Testing;
  }

  lemma StaleStep(s: Host, a: Action)
    ensures if a.Main? && Testing(s.pc)
            then && (Next(s, a).link.stale <==> !s.link.up) && !Testing(Next(s, a).pc) && Next(s, a).link.connected
                 && Next(s, a).link.up == s.link.up
            else Next(s, a).link.stale ==> s.link.stale
  {
    match a
    case Main(o) =>
      hide MainStep;
      MainToken(s, o);
    case Env(e) =>
      hide Collect;
  }

  /** Outside the test the token is present exactly when the link is up as last reported. */
  predicate TokenRight(s: Host) {
    !Testing(s.pc) ==> (s.link.connected <==> s.link.up)
  }

  predicate AlwaysRight(s: Host, run: seq<Action>, n: nat)
    requires n <= |run|
  {
    forall i :: 0 <= i <= n ==> TokenRight(At(s, run, i))
  }

  /** The token is given back with the link down. */
  predicate GivesBackLate(s: Host, a: Action) {
    a.Main? && Testing(s.pc) && !s.link.up
  }

  predicate NeverLate(s: Host, run: seq<Action>, n: nat)
    requires n <= |run|
  {
    forall k :: 0 <= k < n ==> !GivesBackLate(At(s, run, k), run[k])
  }

  lemma RightIfNotStale(s: Host)
    requires Mirror(s)
    ensures !s.link.stale ==> TokenRight(s)
  {
  }

  lemma LateStep(s: Host, a: Action)
    ensures GivesBackLate(s, a) ==> !TokenRight(Next(s, a))
    ensures !GivesBackLate(s, a) && !s.link.stale ==> !Next(s, a).link.stale
  {
    hide Next;
    StaleStep(s, a);
  }

  lemma {:induction false} RightAndStale(s: Host, run: seq<Action>, n: nat)
    requires Mirror(s) && !s.link.stale && n <= |run|
    ensures AlwaysRight(s, run, n) <==> NeverLate(s, run, n)
    ensures NeverLate(s, run, n) ==> !At(s, run, n).link.stale
  {
    hide Next, Mirror, TokenRight, GivesBackLate;
    TokenMirrorsLink(s, run, n);
    RightIfNotStale(At(s, run, n));
    if n > 0 {
      RightAndStale(s, run, n - 1);
      LateStep(At(s, run, n - 1), run[n - 1]);
    } else {
      assert At(s, run, 0) == s;
    }
  }

  /** The exact condition: over any run the token agrees with the last event reporting a link, at every moment outside
      the test, exactly when each main step that gives the token back finds the link up. A CLOSE inside a test is
      harmless when an OPEN follows it there. */
  lemma TokenRightIffNeverLate(s: Host, run: seq<Action>, n: nat)
    requires Mirror(s) && !s.link.stale && n <= |run|
    ensures AlwaysRight(s, run, n) <==> NeverLate(s, run, n)
  {
    RightAndStale(s, run, n);
  }

  lemma ExactMeans(s: Host)
    ensures Exact(s) && !Testing(s.pc) ==> (s.link.connected <==> s.link.up)
  {
  }

  /** Then CONNECTED, entered by opening a selected or a bonded device, means an open link as last reported:
      the test passes only with the link up. */
  lemma PassedTestMeansOpenLink(s: Host, run: seq<Action>, i: nat)
    requires Exact(s) && NoCloseWhileTesting(s, run) && i < |run|
    requires Testing(At(s, run, i).pc) && run[i].Main?
    ensures At(s, run, i + 1).pc == Announce && At(s, run, i + 1).link.up && At(s, run, i + 1).link.connected
  {
    TokenIsExact(s, run, i);
    AtNext(s, run, i);
    hide At, PairStep, ScanStep, LinkStep;
  }

  /** A CLOSE inside the test is enough to break the mirror: the token is given back after it. */
  lemma CloseWhileTestingLeavesToken(s: Host)
    requires s.pc == ConnectGive || s.pc == BondedGive
    ensures var run := [Env(Close), Main(Oracle(true, false))];
            var t := At(s, run, 2);
            t.link.connected && !t.link.up && t.link.stale && t.pc == Announce
  {
    var run := [Env(Close), Main(Oracle(true, false))];
    assert At(s, run, 1) == EnvStep(s, Close);
    assert At(s, run, 2) == MainStep(EnvStep(s, Close), Oracle(true, false));
  }

  /** The start-up state meets all three invariants, so every run from it keeps them. */
  lemma FromPowerOn(s: Host, run: seq<Action>, i: nat)
    requires Initial(s) && i <= |run|
    ensures Inv(At(s, run, i)) && Mirror(At(s, run, i))
    ensures NoCloseWhileTesting(s, run) ==> Exact(At(s, run, i))
  {
    InvInitial(s);
    Reachable(s, run, i);
    TokenMirrorsLink(s, run, i);
    if NoCloseWhileTesting(s, run) {
      TokenIsExact(s, run, i);
    }
  }

  // ---- leaving CONNECTED ----

  /** The main task leaves CONNECTED because the link was lost. */
  predicate SeesLoss(s: Host, a: Action) {
    a.Main? && s.pc == LinkWait && s.link.disconnected
  }

  lemma DisconnectedOnlyByClose(s: Host, a: Action)
    requires !s.link.disconnected && a != Env(Close)
    ensures !Next(s, a).link.disconnected
  {
  }

  lemma {:induction false} NoLossWithoutClose(s: Host, run: seq<Action>, i: nat, j: nat)
    requires i <= j <= |run| && !At(s, run, i).link.disconnected
    requires forall k :: i <= k < j ==> run[k] != Env(Close)
    ensures !At(s, run, j).link.disconnected
  {
    hide *;
    if i < j {
      NoLossWithoutClose(s, run, i, j - 1);
      AtNext(s, run, j - 1);
      DisconnectedOnlyByClose(At(s, run, j - 1), run[j - 1]);
    }
  }

  /** A connection entered without a token left over in disconnected_sem is given up as lost only after a
      CLOSE that arrived since. */
  lemma LossFollowsClose(s: Host, run: seq<Action>, i: nat, j: nat)
    requires i <= j < |run| && At(s, run, i).pc == Announce && !At(s, run, i).link.disconnected
    requires SeesLoss(At(s, run, j), run[j])
    ensures exists k :: i <= k < j && run[k] == Env(Close)
  {
    if forall k :: i <= k < j ==> run[k] != Env(Close) {
      NoLossWithoutClose(s, run, i, j);
      assert false;
    }
  }

  /** Entering the connected loop with the left-over token, and giving up in it. */
  predicate Leaving(s: Host, mains: nat) {
    s.link.disconnected && (if mains == 0 then s.pc == Announce else s.pc == LinkWait)
  }

  lemma LeavingStep(s: Host, a: Action, mains: nat)
    requires Leaving(s, mains) && mains <= 1
    ensures if !a.Main? then Leaving(Next(s, a), mains)
            else if mains == 0 then Leaving(Next(s, a), 1) else SeesLoss(s, a)
  {
    hide ReconnectStep, PairStep, ScanStep, ConnectStep;
  }

  predicate LossBetween(s: Host, run: seq<Action>, i: nat, j: nat)
    requires i <= j <= |run|
  {
    exists k :: i <= k < j && SeesLoss(At(s, run, k), run[k])
  }

  lemma LossGrows(s: Host, run: seq<Action>, i: nat, j: nat)
    requires i <= j < |run|
    ensures LossBetween(s, run, i, j + 1) <==> LossBetween(s, run, i, j) || SeesLoss(At(s, run, j), run[j])
  {
    hide At, SeesLoss;
  }

  lemma {:induction false} LeavingRun(s: Host, run: seq<Action>, i: nat, j: nat)
    requires i <= j <= |run| && Leaving(At(s, run, i), 0)
    ensures LossBetween(s, run, i, j) || (Mains(run, i, j) <= 1 && Leaving(At(s, run, j), Mains(run, i, j)))
  {
    hide At, Next, Leaving, SeesLoss, LossBetween;
    if i < j {
      LeavingRun(s, run, i, j - 1);
      AtNext(s, run, j - 1);
      LossGrows(s, run, i, j - 1);
      if !LossBetween(s, run, i, j - 1) {
        LeavingStep(At(s, run, j - 1), run[j - 1], Mains(run, i, j - 1));
      }
    }
  }

  /** The exact condition, over any run: a connection that no CLOSE has reached is given up within two main steps of
      being reported exactly when a token was left over in disconnected_sem, and otherwise not at all. */
  lemma LostIffTokenLeftOver(s: Host, run: seq<Action>, i: nat, j: nat)
    requires i <= j <= |run| && At(s, run, i).pc == Announce && Mains(run, i, j) >= 2
    requires forall k :: i <= k < j ==> run[k] != Env(Close)
    ensures LossBetween(s, run, i, j) <==> At(s, run, i).link.disconnected
  {
    hide At, Next;
    if At(s, run, i).link.disconnected {
      LeavingRun(s, run, i, j);
    } else if LossBetween(s, run, i, j) {
      var k :| i <= k < j && SeesLoss(At(s, run, k), run[k]);
      NoLossWithoutClose(s, run, i, k);
    }
  }

  // ---- waiting for an open to finish ----

  /** The main task asks the stack to open a device, having drained the open-done token. */
  predicate StartsOpen(s: Host, a: Action) {
    a.Main? && (s.pc.ConnectOpen? || (s.pc == ReconnectTry && !s.store.hidhDev && a.oracle.yes))
  }

  /** The main task stops waiting before the deadline and goes on to test the connected token. */
  predicate WaitEnds(s: Host, a: Action) {
    && a.Main? && !a.oracle.expired
    && (s.pc == ConnectWait || s.pc == BondedWait)
    && (Next(s, a).pc == ConnectTake || Next(s, a).pc == BondedTake)
  }

  predicate OpenResult(a: Action) {
    a == Env(OpenOk) || a == Env(OpenFailed)
  }

  lemma OpenDoneOnlyByResult(s: Host, a: Action)
    requires !s.link.openDone && !OpenResult(a)
    ensures !Next(s, a).link.openDone
  {
  }

  lemma {:induction false} NoOpenDoneWithoutResult(s: Host, run: seq<Action>, i: nat, j: nat)
    requires i <= j <= |run| && !At(s, run, i).link.openDone
    requires forall k :: i <= k < j ==> !OpenResult(run[k])
    ensures !At(s, run, j).link.openDone
  {
    hide *;
    if i < j {
      NoOpenDoneWithoutResult(s, run, i, j - 1);
      AtNext(s, run, j - 1);
      OpenDoneOnlyByResult(At(s, run, j - 1), run[j - 1]);
    }
  }

  lemma StartDrains(s: Host, a: Action)
    requires StartsOpen(s, a)
    ensures !Next(s, a).link.openDone
  {
  }

  lemma WaitEndNeedsToken(s: Host, a: Action)
    requires WaitEnds(s, a)
    ensures s.link.openDone
  {
  }

  /** A wait that ends before its deadline was ended by an OPEN event that arrived after the open-done token was
      drained for it: a signal from before that cannot end it. */
  lemma WaitEndsByFreshResult(s: Host, run: seq<Action>, i: nat, j: nat)
    requires i < j < |run| && StartsOpen(At(s, run, i), run[i]) && WaitEnds(At(s, run, j), run[j])
    ensures exists k :: i < k < j && OpenResult(run[k])
  {
    hide At, Next, StartsOpen, WaitEnds;
    AtNext(s, run, i);
    StartDrains(At(s, run, i), run[i]);
    WaitEndNeedsToken(At(s, run, j), run[j]);
    if forall k :: i < k < j ==> !OpenResult(run[k]) {
      NoOpenDoneWithoutResult(s, run, i + 1, j);
      assert false;
    }
  }

  /** A token left over from an earlier link is taken at once: CONNECTED is left although the link is up. */
  lemma StaleTokenEndsConnection(s: Host)
    requires s.pc == Announce && s.link.disconnected && s.link.up
    ensures var run := [Main(Oracle(true, false)), Main(Oracle(true, false)), Main(Oracle(true, false))];
            && Reported(At(s, run, 0), run[0]) == Some(Connected)
            && Reported(At(s, run, 2), run[2]) == Some(Reconnecting)
            && At(s, run, 3).link.up
  {
    var o := Oracle(true, false);
    var run := [Main(o), Main(o), Main(o)];
    AtNext(s, run, 0);
    AtNext(s, run, 1);
    AtNext(s, run, 2);
    assert At(s, run, 0) == s;
    hide At;
    LossTaken(s, o);
  }

  lemma LossTaken(s: Host, o: Oracle)
    requires s.pc == Announce && s.link.disconnected
    ensures var t := MainStep(s, o);
            var u := MainStep(t, o);
            && Reported(s, Main(o)) == Some(Connected)
            && Reported(u, Main(o)) == Some(Reconnecting)
            && MainStep(u, o).link.up == s.link.up
  {
    hide ReconnectStep, PairStep, ScanStep, ConnectStep;
  }
}
