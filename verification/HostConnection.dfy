/** How CONNECTED is entered and left, over all runs: only through a passed test of the token or an accepted light
    reconnect, always after a successful OPEN, and never at the price of a bond nobody asked to forget
    (src/bt_kbd.c:316-367, 382-430, 524-594). */
module HostConnection {
  import opened HidTypes
  import opened ScanList
  import opened CommandQueue
  import opened HostMachine
  import opened HostSafety

  lemma EnvKeepsPlace(s: Host, a: Action)
    requires a.Env?
    ensures Next(s, a).pc == s.pc && Next(s, a).state == s.state && Reported(s, a) == None
    ensures Next(s, a).store.forceRepair == s.store.forceRepair
  {
    hide MainStep, Collect;
  }

  // ---- entering CONNECTED ----

  /** A light reconnect of the remembered device is accepted. */
  predicate LightReconnect(s: Host, a: Action) {
    a.Main? && s.pc == ReconnectTry && s.store.hidhDev && a.oracle.yes
  }

  /** The test takes the connected token. */
  predicate TakesToken(s: Host, a: Action) {
    a.Main? && (s.pc == BondedTake || s.pc == ConnectTake) && s.link.connected
  }

  lemma EntersAnnounce(s: Host, a: Action)
    requires s.pc != Announce
    ensures Next(s, a).pc == Announce <==> a.Main? && (Testing(s.pc) || LightReconnect(s, a))
  {
    hide Collect;
  }

  lemma EntersTest(s: Host, a: Action)
    requires !Testing(s.pc)
    ensures Testing(Next(s, a).pc) <==> TakesToken(s, a)
  {
    if a.Env? {
      EnvKeepsPlace(s, a);
      hide Next;
    } else {
      hide EnvStep;
    }
  }

  lemma LeavesTest(s: Host, a: Action)
    requires Testing(s.pc) && Testing(Next(s, a).pc)
    ensures a.Env?
  {
  }

  /** The step by which the main task last came to the place where it is. */
  lemma {:induction false} LastEntry(s: Host, run: seq<Action>, j: nat, p: Pc) returns (i: nat)
    requires j <= |run| && s.pc != p && At(s, run, j).pc == p
    ensures i < j && At(s, run, i).pc != p
    ensures forall k :: i < k <= j ==> At(s, run, k).pc == p
  {
    hide *;
    if j == 0 {
      AtStart(s, run);
      assert false;
    } else if At(s, run, j - 1).pc == p {
      i := LastEntry(s, run, j - 1, p);
    } else {
      i := j - 1;
    }
  }

  /** Step i enters CONNECTED's first step: by a light reconnect, or by giving back a token that the same test took. */
  predicate EnteredBy(s: Host, run: seq<Action>, i: nat)
    requires i < |run|
  {
    || LightReconnect(At(s, run, i), run[i])
    || (&& Testing(At(s, run, i).pc) && run[i].Main?
        && exists h :: 0 <= h < i && TokenTakenFor(s, run, h, i))
  }

  predicate TokenTakenFor(s: Host, run: seq<Action>, h: nat, i: nat)
    requires h < i < |run|
  {
    && TakesToken(At(s, run, h), run[h])
    && (forall k :: h < k <= i ==> At(s, run, k).pc == At(s, run, i).pc)
  }

  lemma TestedByTaking(s: Host, run: seq<Action>, i: nat)
    requires i < |run| && !Testing(s.pc) && Testing(At(s, run, i).pc)
    ensures exists h :: 0 <= h < i && TokenTakenFor(s, run, h, i)
  {
    hide At, Next, TakesToken;
    var p := At(s, run, i).pc;
    var h := LastEntry(s, run, i, p);
    AtNext(s, run, h);
    if Testing(At(s, run, h).pc) {
      LeavesTest(At(s, run, h), run[h]);
      EnvKeepsPlace(At(s, run, h), run[h]);
      assert false;
    }
    EntersTest(At(s, run, h), run[h]);
    assert TokenTakenFor(s, run, h, i);
  }

  predicate EnteredBefore(s: Host, run: seq<Action>, i: nat, j: nat)
    requires i < j < |run|
  {
    EnteredBy(s, run, i) && forall k :: i < k <= j ==> At(s, run, k).pc == Announce
  }

  /** Whenever CONNECTED is reported, the main task has come there by an accepted light reconnect of a remembered
      device, or by a test that found the token and gave it back. */
  lemma ConnectedOnlyThroughTest(s: Host, run: seq<Action>, j: nat)
    requires s.pc != Announce && !Testing(s.pc) && j < |run|
    requires Reported(At(s, run, j), run[j]) == Some(Connected)
    ensures exists i :: 0 <= i < j && EnteredBefore(s, run, i, j)
  {
    ConnectedAtAnnounce(At(s, run, j), run[j]);
    hide At, Next, LightReconnect, Testing, Reported;
    var i := LastEntry(s, run, j, Announce);
    AtNext(s, run, i);
    EntersAnnounce(At(s, run, i), run[i]);
    if Testing(At(s, run, i).pc) {
      TestedByTaking(s, run, i);
    }
    assert EnteredBefore(s, run, i, j);
  }

  lemma ConnectedAtAnnounce(s: Host, a: Action)
    requires Reported(s, a) == Some(Connected)
    ensures s.pc == Announce && a.Main?
  {
  }

  predicate NoLightReconnect(s: Host, run: seq<Action>) {
    forall k :: 0 <= k < |run| ==> !LightReconnect(At(s, run, k), run[k])
  }

  predicate EnteredUp(s: Host, run: seq<Action>, i: nat, j: nat)
    requires i < j < |run|
  {
    && At(s, run, i + 1).link.up && At(s, run, i + 1).link.connected
    && (forall k :: i < k <= j ==> At(s, run, k).pc == Announce)
  }

  /** From start-up, with no CLOSE inside a test and no light reconnect: every CONNECTED reported was entered with the
      link up as last reported. */
  lemma ConnectedMeansOpenLink(s: Host, run: seq<Action>, j: nat)
    requires Initial(s) && NoCloseWhileTesting(s, run) && NoLightReconnect(s, run) && j < |run|
    requires Reported(At(s, run, j), run[j]) == Some(Connected)
    ensures exists i :: 0 <= i < j && EnteredUp(s, run, i, j)
  {
    ConnectedOnlyThroughTest(s, run, j);
    var i :| 0 <= i < j && EnteredBefore(s, run, i, j);
    assert Exact(s);
    hide At, Next, LightReconnect, Testing, Exact, Reported;
    PassedTestMeansOpenLink(s, run, i);
    assert EnteredUp(s, run, i, j);
  }

  // ---- the outcome of opening a device ----

  /** Opening a device, from asking for it to the end of the test. */
  predicate InAttempt(pc: Pc, bonded: bool) {
    if bonded then pc == BondedWait || pc == BondedPeek || pc == BondedTake || pc == BondedGive
    else pc == ConnectWait || pc == ConnectPeek || pc == ConnectAbort || pc == ConnectTake || pc == ConnectGive
  }

  /** Where a failed attempt goes: the delay before the next one, or back to pairing. */
  function FailurePc(bonded: bool): Pc {
    if bonded then ReconnectDelay else PairClear
  }

  function OfBonded(s: Host): bool {
    s.pc == ReconnectTry
  }

  predicate Passed(pc: Pc) {
    pc == Announce || Testing(pc)
  }

  lemma AttemptStarts(s: Host, a: Action)
    requires StartsOpen(s, a)
    ensures InAttempt(Next(s, a).pc, OfBonded(s)) && !Passed(Next(s, a).pc) && Reported(s, a) == None
    ensures Next(s, a).link.connected == s.link.connected
  {
  }

  lemma AttemptStep(s: Host, a: Action, bonded: bool)
    requires InAttempt(s.pc, bonded)
    ensures var t := Next(s, a);
            && Reported(s, a) == None
            && (InAttempt(t.pc, bonded) || t.pc == Announce || t.pc == FailurePc(bonded))
            && (Passed(t.pc) <==> Passed(s.pc) || TakesToken(s, a))
  {
    if a.Env? {
      EnvKeepsPlace(s, a);
      hide Next;
    } else {
      hide PairStep, ScanStep, EnvStep;
      if bonded {
        hide ConnectStep;
      } else {
        hide ReconnectStep;
      }
    }
  }

  predicate TokenTaken(s: Host, run: seq<Action>, i: nat, j: nat)
    requires i <= j <= |run|
  {
    exists k :: i <= k < j && TakesToken(At(s, run, k), run[k])
  }

  lemma TakenGrows(s: Host, run: seq<Action>, i: nat, j: nat)
    requires i <= j < |run|
    ensures TokenTaken(s, run, i, j + 1) <==> TokenTaken(s, run, i, j) || TakesToken(At(s, run, j), run[j])
  {
    hide At, TakesToken;
  }

  lemma TakenNone(s: Host, run: seq<Action>, i: nat)
    requires i <= |run|
    ensures !TokenTaken(s, run, i, i)
  {
  }

  predicate DuringAttempt(s: Host, run: seq<Action>, i: nat, j: nat)
    requires i < j <= |run|
  {
    && StartsOpen(At(s, run, i), run[i])
    && (forall k :: i < k < j ==> InAttempt(At(s, run, k).pc, OfBonded(At(s, run, i))))
  }

  predicate SilentBetween(s: Host, run: seq<Action>, i: nat, j: nat)
    requires i <= j <= |run|
  {
    forall k :: i <= k < j ==> Reported(At(s, run, k), run[k]) == None
  }

  /** Whatever happens while a device is being opened: no state is reported, and the attempt goes on, or has come to
      CONNECTED, or has failed to where a failed attempt goes. It succeeds exactly when the test takes the token. */
  lemma {:induction false} AttemptOutcome(s: Host, run: seq<Action>, i: nat, j: nat)
    requires i < j <= |run| && DuringAttempt(s, run, i, j)
    ensures var b, pc := OfBonded(At(s, run, i)), At(s, run, j).pc;
            && SilentBetween(s, run, i, j)
            && (InAttempt(pc, b) || pc == Announce || pc == FailurePc(b))
            && (Passed(pc) <==> TokenTaken(s, run, i + 1, j))
  {
    hide At, Next, StartsOpen, InAttempt, Passed, TakesToken, TokenTaken, OfBonded, Reported, FailurePc;
    AtNext(s, run, j - 1);
    if j == i + 1 {
      AttemptStarts(At(s, run, i), run[i]);
      TakenNone(s, run, j);
    } else {
      AttemptOutcome(s, run, i, j - 1);
      AttemptStep(At(s, run, j - 1), run[j - 1], OfBonded(At(s, run, i)));
      TakenGrows(s, run, i + 1, j - 1);
    }
  }

  lemma NoTokenStep(s: Host, a: Action)
    requires !s.link.connected && !Testing(s.pc) && a != Env(OpenOk)
    ensures !Next(s, a).link.connected && !Testing(Next(s, a).pc) && !TakesToken(s, a)
  {
    match a
    case Main(o) =>
      hide MainStep;
      MainToken(s, o);
    case Env(e) =>
      hide Collect;
  }

  lemma {:induction false} NoTokenWithoutOpen(s: Host, run: seq<Action>, i: nat, j: nat)
    requires i <= j <= |run| && !At(s, run, i).link.connected && !Testing(At(s, run, i).pc)
    requires forall k :: i <= k < j ==> run[k] != Env(OpenOk)
    ensures !At(s, run, j).link.connected && !Testing(At(s, run, j).pc) && !TokenTaken(s, run, i, j)
  {
    hide *;
    if i == j {
      TakenNone(s, run, i);
    } else {
      NoTokenWithoutOpen(s, run, i, j - 1);
      AtNext(s, run, j - 1);
      TakenGrows(s, run, i, j - 1);
      NoTokenStep(At(s, run, j - 1), run[j - 1]);
    }
  }

  /** A device that does not answer: begun without the token and never opened successfully, the attempt ends, refused or
      timed out, in the delay before the next one or back in pairing, and nothing is reported. */
  lemma UnansweredAttemptFails(s: Host, run: seq<Action>, i: nat, j: nat)
    requires i < j <= |run| && DuringAttempt(s, run, i, j) && !At(s, run, i).link.connected
    requires forall k :: i < k < j ==> run[k] != Env(OpenOk)
    ensures SilentBetween(s, run, i, j)
    ensures var b, pc := OfBonded(At(s, run, i)), At(s, run, j).pc;
            InAttempt(pc, b) || pc == FailurePc(b)
  {
    hide *;
    AttemptOutcome(s, run, i, j);
    AttemptBegun(s, run, i, j);
    NoTokenWithoutOpen(s, run, i + 1, j);
    NotPassed(At(s, run, j));
  }

  lemma AttemptBegun(s: Host, run: seq<Action>, i: nat, j: nat)
    requires i < j <= |run| && DuringAttempt(s, run, i, j) && !At(s, run, i).link.connected
    ensures !At(s, run, i + 1).link.connected && !Testing(At(s, run, i + 1).pc)
  {
    hide At, Next, StartsOpen, InAttempt;
    AtNext(s, run, i);
    AttemptStarts(At(s, run, i), run[i]);
    NotPassed(At(s, run, i + 1));
  }

  lemma NotPassed(s: Host)
    ensures Passed(s.pc) <==> s.pc == Announce || Testing(s.pc)
  {
  }

  /** on_status is called with the states reported, and besides with SCANNING exactly when a scan times out or the test
      of a selected device fails. */
  lemma PromptsShown(s: Host, a: Action)
    ensures var timedOut := a.Main? && s.pc == TimeoutCancel;
            var failed := a.Main? && s.pc == ConnectTake && Next(s, a).pc == PairClear;
            StatusShown(s, a) == if timedOut || failed then Some(Scanning) else Reported(s, a)
  {
  }

  // ---- a wait ends at once when it may ----

  /** A wait goes on to the test exactly when its deadline has passed or the open-done token is there. */
  lemma WaitEndsExactly(s: Host, a: Action)
    requires a.Main? && (s.pc == ConnectWait || s.pc == BondedWait)
    ensures Next(s, a).pc == (if s.pc == BondedWait then BondedTake else ConnectTake)
       <==> a.oracle.expired || s.link.openDone
  {
  }

  predicate Waits(pc: Pc) {
    pc == ConnectWait || pc == ConnectPeek || pc == BondedWait || pc == BondedPeek
  }

  /** Main steps left until CONNECTED is reported. */
  function OpenRank(pc: Pc): nat {
    match pc
    case ConnectPeek | BondedPeek => 5
    case ConnectWait | BondedWait => 4
    case ConnectTake | BondedTake => 3
    case ConnectGive | BondedGive => 2
    case Announce => 1
    case _ => 0
  }

  /** The device has answered, and nothing has come in between since. */
  predicate Answered(s: Host) {
    && OpenRank(s.pc) > 0 && NoStart(s.queue)
    && (OpenRank(s.pc) >= 4 ==> s.link.openDone) && (OpenRank(s.pc) >= 3 ==> s.link.connected)
  }

  lemma AnsweredMain(s: Host, o: Oracle)
    requires Answered(s)
    ensures if s.pc == Announce then Reported(s, Main(o)) == Some(Connected)
            else Answered(MainStep(s, o)) && OpenRank(MainStep(s, o).pc) + 1 == OpenRank(s.pc)
  {
    hide PairStep, ScanStep;
  }

  lemma AnsweredEnv(s: Host, e: Event)
    requires Answered(s) && e != Close && e != SendStart
    ensures Answered(EnvStep(s, e)) && EnvStep(s, e).pc == s.pc
  {
    hide Collect;
  }

  lemma AnsweredStep(s: Host, a: Action)
    requires Answered(s) && a != Env(Close) && a != Env(SendStart)
    ensures Reported(s, a) == Some(Connected)
         || (Answered(Next(s, a)) && OpenRank(Next(s, a).pc) + (if a.Main? then 1 else 0) == OpenRank(s.pc))
  {
    hide MainStep, EnvStep, Answered, OpenRank, Reported;
    match a
    case Main(o) => AnsweredMain(s, o);
    case Env(e) => AnsweredEnv(s, e);
  }

  lemma AnswerArrives(s: Host)
    requires Waits(s.pc) && NoStart(s.queue)
    ensures Answered(Next(s, Env(OpenOk)))
  {
  }

  predicate ReportedBetween(s: Host, run: seq<Action>, i: nat, j: nat, st: KbdState)
    requires i <= j <= |run|
  {
    exists k :: i <= k < j && Reported(At(s, run, k), run[k]) == Some(st)
  }

  lemma ReportedGrows(s: Host, run: seq<Action>, i: nat, j: nat, st: KbdState)
    requires i <= j < |run|
    ensures ReportedBetween(s, run, i, j + 1, st)
       <==> ReportedBetween(s, run, i, j, st) || Reported(At(s, run, j), run[j]) == Some(st)
  {
    hide At, Reported;
  }

  predicate Untroubled(run: seq<Action>, i: nat, j: nat)
    requires i <= j <= |run|
  {
    forall k :: i <= k < j ==> run[k] != Env(Close) && run[k] != Env(SendStart)
  }

  lemma {:induction false} AnsweredRun(s: Host, run: seq<Action>, i: nat, j: nat)
    requires i <= j <= |run| && Answered(At(s, run, i)) && Untroubled(run, i, j)
    ensures ReportedBetween(s, run, i, j, Connected)
         || (&& Answered(At(s, run, j))
             && Mains(run, i, j) + OpenRank(At(s, run, j).pc) == OpenRank(At(s, run, i).pc))
  {
    hide At, Next, Answered, OpenRank, Reported, ReportedBetween;
    if i < j {
      AnsweredRun(s, run, i, j - 1);
      AtNext(s, run, j - 1);
      ReportedGrows(s, run, i, j - 1, Connected);
      if Answered(At(s, run, j - 1)) {
        AnsweredStep(At(s, run, j - 1), run[j - 1]);
      }
    }
  }

  lemma AnsweredRank(s: Host)
    requires Answered(s)
    ensures 1 <= OpenRank(s.pc) <= 5
  {
  }

  /** The good case: a device answers while it is waited for, with no request queued or sent and no CLOSE. CONNECTED is
      reported within five main steps. */
  lemma AnswerIsReported(s: Host, run: seq<Action>, i: nat, j: nat)
    requires i < j <= |run| && Waits(At(s, run, i).pc) && NoStart(At(s, run, i).queue) && run[i] == Env(OpenOk)
    requires Untroubled(run, i, j) && Mains(run, i + 1, j) >= 5
    ensures ReportedBetween(s, run, i + 1, j, Connected)
  {
    hide At, Next, Answered, OpenRank, Waits, NoStart, ReportedBetween;
    AtNext(s, run, i);
    AnswerArrives(At(s, run, i));
    AnsweredRun(s, run, i + 1, j);
    AnsweredRank(At(s, run, i + 1));
    if Answered(At(s, run, j)) {
      AnsweredRank(At(s, run, j));
    }
  }

  // ---- a refusal is noticed ----

  function RefusalRank(pc: Pc): nat {
    match pc
    case ConnectPeek | BondedPeek => 3
    case ConnectWait | BondedWait => 2
    case ConnectTake | BondedTake => 1
    case _ => 0
  }

  /** The stack has reported that the open failed, and there is no token. */
  predicate Turned(s: Host, bonded: bool) {
    && InAttempt(s.pc, bonded) && RefusalRank(s.pc) > 0 && NoStart(s.queue) && !s.link.connected
    && (RefusalRank(s.pc) >= 2 ==> s.link.openDone)
  }

  lemma TurnedMain(s: Host, o: Oracle, bonded: bool)
    requires Turned(s, bonded)
    ensures var t := MainStep(s, o);
            if RefusalRank(s.pc) == 1 then t.pc == FailurePc(bonded)
            else Turned(t, bonded) && RefusalRank(t.pc) + 1 == RefusalRank(s.pc)
  {
    hide PairStep, ScanStep;
  }

  lemma TurnedEnv(s: Host, e: Event, bonded: bool)
    requires Turned(s, bonded) && e != OpenOk && e != SendStart
    ensures Turned(EnvStep(s, e), bonded) && EnvStep(s, e).pc == s.pc
  {
    hide Collect;
  }

  lemma TurnedStep(s: Host, a: Action, bonded: bool)
    requires Turned(s, bonded) && a != Env(OpenOk) && a != Env(SendStart)
    ensures Next(s, a).pc == FailurePc(bonded)
         || (Turned(Next(s, a), bonded)
             && RefusalRank(Next(s, a).pc) + (if a.Main? then 1 else 0) == RefusalRank(s.pc))
  {
    hide MainStep, EnvStep, Turned, FailurePc;
    match a
    case Main(o) =>
      TurnedMain(s, o, bonded);
      TurnedRank(s, bonded);
    case Env(e) =>
      TurnedEnv(s, e, bonded);
  }

  lemma TurnedRank(s: Host, bonded: bool)
    requires Turned(s, bonded)
    ensures 1 <= RefusalRank(s.pc) <= 3
  {
  }

  predicate ReachedBetween(s: Host, run: seq<Action>, i: nat, j: nat, pc: Pc)
    requires i <= j <= |run|
  {
    exists k :: i < k <= j && At(s, run, k).pc == pc
  }

  lemma ReachedGrows(s: Host, run: seq<Action>, i: nat, j: nat, pc: Pc)
    requires i <= j < |run|
    ensures ReachedBetween(s, run, i, j + 1, pc) <==> ReachedBetween(s, run, i, j, pc) || At(s, run, j + 1).pc == pc
  {
    hide At;
  }

  lemma {:induction false} TurnedRun(s: Host, run: seq<Action>, i: nat, j: nat, bonded: bool)
    requires i <= j <= |run| && Turned(At(s, run, i), bonded)
    requires forall k :: i <= k < j ==> run[k] != Env(OpenOk) && run[k] != Env(SendStart)
    ensures ReachedBetween(s, run, i, j, FailurePc(bonded))
         || (&& Turned(At(s, run, j), bonded)
             && Mains(run, i, j) + RefusalRank(At(s, run, j).pc) == RefusalRank(At(s, run, i).pc))
  {
    hide At, Next, Turned, RefusalRank, FailurePc, ReachedBetween;
    if i < j {
      TurnedRun(s, run, i, j - 1, bonded);
      AtNext(s, run, j - 1);
      ReachedGrows(s, run, i, j - 1, FailurePc(bonded));
      if Turned(At(s, run, j - 1), bonded) {
        TurnedStep(At(s, run, j - 1), run[j - 1], bonded);
      }
    }
  }

  predicate OfBondedWait(pc: Pc) {
    pc == BondedWait || pc == BondedPeek
  }

  lemma RefusalArrives(s: Host)
    requires Waits(s.pc) && NoStart(s.queue) && !s.link.connected
    ensures Turned(Next(s, Env(OpenFailed)), OfBondedWait(s.pc))
  {
  }

  /** An open that fails while it is waited for, with no token there and no request queued or sent: within three main
      steps the attempt has failed to the delay before the next one, or back to pairing, without waiting for its
      deadline. */
  lemma RefusalIsNoticed(s: Host, run: seq<Action>, i: nat, j: nat)
    requires i < j <= |run| && Waits(At(s, run, i).pc) && NoStart(At(s, run, i).queue)
    requires !At(s, run, i).link.connected && run[i] == Env(OpenFailed) && Mains(run, i + 1, j) >= 3
    requires forall k :: i < k < j ==> run[k] != Env(OpenOk) && run[k] != Env(SendStart)
    ensures ReachedBetween(s, run, i + 1, j, FailurePc(OfBondedWait(At(s, run, i).pc)))
  {
    hide At, Next, Turned, RefusalRank, FailurePc, Waits, OfBondedWait, NoStart, ReachedBetween;
    var bonded := OfBondedWait(At(s, run, i).pc);
    AtNext(s, run, i);
    RefusalArrives(At(s, run, i));
    TurnedRun(s, run, i + 1, j, bonded);
    TurnedRank(At(s, run, i + 1), bonded);
    if Turned(At(s, run, j), bonded) {
      TurnedRank(At(s, run, j), bonded);
    }
  }

  // ---- losing the link ----

  function LossRank(pc: Pc): nat {
    match pc
    case Announce | LinkPeek => 3
    case LinkWait => 2
    case LinkLost => 1
    case _ => 0
  }

  predicate Losing(s: Host) {
    LossRank(s.pc) > 0 && NoStart(s.queue) && (LossRank(s.pc) >= 2 ==> s.link.disconnected)
  }

  lemma LosingMain(s: Host, o: Oracle)
    requires Losing(s)
    ensures if s.pc == LinkLost then Reported(s, Main(o)) == Some(Reconnecting)
            else Losing(MainStep(s, o)) && LossRank(MainStep(s, o).pc) + 1 == LossRank(s.pc)
  {
    hide ReconnectStep, PairStep, ScanStep, ConnectStep;
  }

  lemma LosingEnv(s: Host, e: Event)
    requires Losing(s) && e != SendStart
    ensures Losing(EnvStep(s, e)) && EnvStep(s, e).pc == s.pc
  {
    hide Collect;
  }

  lemma LosingStep(s: Host, a: Action)
    requires Losing(s) && a != Env(SendStart)
    ensures Reported(s, a) == Some(Reconnecting)
         || (Losing(Next(s, a)) && LossRank(Next(s, a).pc) + (if a.Main? then 1 else 0) == LossRank(s.pc))
  {
    hide MainStep, EnvStep, Losing, LossRank, Reported;
    match a
    case Main(o) => LosingMain(s, o);
    case Env(e) => LosingEnv(s, e);
  }

  lemma {:induction false} LosingRun(s: Host, run: seq<Action>, i: nat, j: nat)
    requires i <= j <= |run| && Losing(At(s, run, i))
    requires forall k :: i <= k < j ==> run[k] != Env(SendStart)
    ensures ReportedBetween(s, run, i, j, Reconnecting)
         || (Losing(At(s, run, j)) && Mains(run, i, j) + LossRank(At(s, run, j).pc) == LossRank(At(s, run, i).pc))
  {
    hide At, Next, Losing, LossRank, Reported, ReportedBetween;
    if i < j {
      LosingRun(s, run, i, j - 1);
      AtNext(s, run, j - 1);
      ReportedGrows(s, run, i, j - 1, Reconnecting);
      if Losing(At(s, run, j - 1)) {
        LosingStep(At(s, run, j - 1), run[j - 1]);
      }
    }
  }

  lemma LosingRank(s: Host)
    requires Losing(s)
    ensures 1 <= LossRank(s.pc) <= 3
  {
  }

  predicate InLink(pc: Pc) {
    pc == Announce || pc == LinkWait || pc == LinkPeek
  }

  lemma CloseArrives(s: Host)
    requires InLink(s.pc) && NoStart(s.queue)
    ensures Losing(Next(s, Env(Close)))
  {
  }

  /** A CLOSE while connected, with no request queued or sent, is noticed: RECONNECTING is reported within three main
      steps. */
  lemma CloseIsReported(s: Host, run: seq<Action>, i: nat, j: nat)
    requires i < j <= |run| && InLink(At(s, run, i).pc) && NoStart(At(s, run, i).queue) && run[i] == Env(Close)
    requires (forall k :: i < k < j ==> run[k] != Env(SendStart)) && Mains(run, i + 1, j) >= 3
    ensures ReportedBetween(s, run, i + 1, j, Reconnecting)
  {
    hide At, Next, Losing, LossRank, InLink, NoStart, ReportedBetween;
    AtNext(s, run, i);
    CloseArrives(At(s, run, i));
    LosingRun(s, run, i + 1, j);
    LosingRank(At(s, run, i + 1));
    if Losing(At(s, run, j)) {
      LosingRank(At(s, run, j));
    }
  }

  /** The token in disconnected_sem is taken by leaving CONNECTED: after a loss that was noticed, and after a request
      that closed the link of an open device. */
  predicate TakesLoss(s: Host, a: Action) {
    SeesLoss(s, a) || (a.Main? && s.pc == LinkClose && s.store.hidhDev)
  }

  lemma LossDrains(s: Host, a: Action)
    requires TakesLoss(s, a)
    ensures !Next(s, a).link.disconnected
  {
  }

  /** After that only another CLOSE can end the next connection. */
  lemma NoTokenLeftAfterLoss(s: Host, run: seq<Action>, i: nat, j: nat)
    requires i < j <= |run| && TakesLoss(At(s, run, i), run[i])
    requires forall k :: i < k < j ==> run[k] != Env(Close)
    ensures !At(s, run, j).link.disconnected
  {
    hide *;
    LossDrains(At(s, run, i), run[i]);
    AtNext(s, run, i);
    NoLossWithoutClose(s, run, i + 1, j);
  }

  // ---- bonds survive until somebody asks ----

  /** Reconnecting or connected, with a bond and no re-pair flag. */
  predicate InCycle(s: Host) {
    && s.store.bonds > 0 && !s.store.forceRepair
    && (|| s.pc == Top || s.pc == ReconnectPoll || s.pc == ReconnectTry || s.pc == ReconnectDelay
        || InAttempt(s.pc, true) || InLink(s.pc) || s.pc == LinkLost)
  }

  /** The bond store cannot be read when reconnecting starts. */
  predicate CountFails(s: Host, a: Action) {
    a.Main? && s.pc == Top && !a.oracle.yes
  }

  lemma CycleMain(s: Host, o: Oracle)
    requires InCycle(s) && !Consumes(s, Main(o)) && !CountFails(s, Main(o))
    ensures InCycle(MainStep(s, o)) && MainStep(s, o).store.bonds == s.store.bonds
    ensures Reported(s, Main(o)) != Some(Scanning) && !ClearsBonds(s, Main(o))
  {
    hide PairStep, ScanStep, ConnectStep;
    if InLink(s.pc) || s.pc == LinkLost {
      hide ReconnectStep;
    } else {
      hide LinkStep;
    }
  }

  lemma CycleEnv(s: Host, e: Event)
    requires InCycle(s)
    ensures InCycle(EnvStep(s, e)) && EnvStep(s, e).store.bonds >= s.store.bonds
  {
    hide Collect;
  }

  lemma CycleStep(s: Host, a: Action)
    requires InCycle(s) && !Consumes(s, a) && !CountFails(s, a)
    ensures InCycle(Next(s, a)) && Next(s, a).store.bonds >= s.store.bonds
    ensures Reported(s, a) != Some(Scanning) && !ClearsBonds(s, a)
  {
    hide MainStep, EnvStep, InCycle, CountFails, Consumes;
    match a
    case Main(o) => CycleMain(s, o);
    case Env(e) => CycleEnv(s, e);
  }

  predicate NobodyAsks(s: Host, run: seq<Action>, i: nat, j: nat)
    requires i <= j <= |run|
  {
    forall k :: i <= k < j ==> !Consumes(At(s, run, k), run[k]) && !CountFails(At(s, run, k), run[k])
  }

  predicate NeverScans(s: Host, run: seq<Action>, i: nat, j: nat)
    requires i <= j <= |run|
  {
    forall k :: i <= k < j ==> !ClearsBonds(At(s, run, k), run[k]) && Reported(At(s, run, k), run[k]) != Some(Scanning)
  }

  /** Automatic reconnection: with a bond stored, through any number of losses, failed attempts and connections, no bond
      is cleared and SCANNING is not reported until a re-pair request is served or the bond store cannot be read. */
  lemma {:induction false} BondsSurvive(s: Host, run: seq<Action>, i: nat, j: nat)
    requires i <= j <= |run| && InCycle(At(s, run, i)) && NobodyAsks(s, run, i, j)
    ensures InCycle(At(s, run, j)) && At(s, run, j).store.bonds >= At(s, run, i).store.bonds
    ensures NeverScans(s, run, i, j)
  {
    hide At, Next, InCycle, Consumes, CountFails, ClearsBonds, Reported;
    if i < j {
      BondsSurvive(s, run, i, j - 1);
      AtNext(s, run, j - 1);
      CycleStep(At(s, run, j - 1), run[j - 1]);
    }
  }

  /** Bonds stored between two moments. */
  function Stored(run: seq<Action>, i: nat, j: nat): nat
    requires i <= j <= |run|
  {
    if i == j then 0 else Stored(run, i, j - 1) + if run[j - 1] == Env(BondStored) then 1 else 0
  }

  lemma BondStep(s: Host, a: Action)
    requires !ClearsBonds(s, a)
    ensures Next(s, a).store.bonds == s.store.bonds + if a == Env(BondStored) then 1 else 0
  {
    hide Collect;
  }

  /** Between two clearings the bonds are those there were and those stored since: nothing else adds or removes one. */
  lemma {:induction false} BondsAreCounted(s: Host, run: seq<Action>, i: nat, j: nat)
    requires i <= j <= |run| && forall k :: i <= k < j ==> !ClearsBonds(At(s, run, k), run[k])
    ensures At(s, run, j).store.bonds == At(s, run, i).store.bonds + Stored(run, i, j)
  {
    hide At, Next, ClearsBonds;
    if i < j {
      BondsAreCounted(s, run, i, j - 1);
      AtNext(s, run, j - 1);
      BondStep(At(s, run, j - 1), run[j - 1]);
    }
  }

  // ---- the first state reported ----

  /** Nothing but the environment has acted before i. */
  predicate FirstMain(run: seq<Action>, i: nat) {
    i < |run| && run[i].Main? && forall k :: 0 <= k < i ==> run[k].Env?
  }

  lemma {:induction false} StillTop(s: Host, run: seq<Action>, i: nat)
    requires Initial(s) && i <= |run| && forall k :: 0 <= k < i ==> run[k].Env?
    ensures var t := At(s, run, i);
            t.pc == Top && t.state == Idle && t.store.forceRepair == s.store.forceRepair
  {
    hide At, Next;
    if i == 0 {
      AtStart(s, run);
    } else {
      StillTop(s, run, i - 1);
      AtNext(s, run, i - 1);
      EnvKeepsPlace(At(s, run, i - 1), run[i - 1]);
    }
  }

  lemma NotIdleStep(s: Host, a: Action)
    requires Inv(s) && s.state != Idle
    ensures Next(s, a).state != Idle
  {
    ReportStep(s, a);
  }

  lemma {:induction false} NotIdleRun(s: Host, run: seq<Action>, i: nat, j: nat)
    requires Inv(s) && i <= j <= |run| && At(s, run, i).state != Idle
    ensures At(s, run, j).state != Idle
  {
    hide *;
    if i < j {
      NotIdleRun(s, run, i, j - 1);
      Reachable(s, run, j - 1);
      AtNext(s, run, j - 1);
      NotIdleStep(At(s, run, j - 1), run[j - 1]);
    }
  }

  lemma {:induction false} ForcedFrom(s: Host, run: seq<Action>, i: nat, j: nat)
    requires Inv(s) && i <= j <= |run| && ForcedStart(At(s, run, i))
    ensures ForcedStart(At(s, run, j)) && Inv(At(s, run, j))
  {
    hide *;
    Reachable(s, run, j);
    if i < j {
      ForcedFrom(s, run, i, j - 1);
      AtNext(s, run, j - 1);
      ForcedStep(At(s, run, j - 1), run[j - 1]);
    }
  }

  /** The main task's first step decides what is shown first: with a readable bond store, a bond and no force_repair it
      is RECONNECTING, at once; otherwise it is SCANNING. */
  lemma FirstReport(s: Host, run: seq<Action>, i: nat, j: nat)
    requires Initial(s) && FirstMain(run, i) && i <= j < |run|
    requires At(s, run, j).state == Idle && Reported(At(s, run, j), run[j]).Some?
    ensures var bonded := !s.store.forceRepair && run[i].oracle.yes && At(s, run, i).store.bonds > 0;
            && Reported(At(s, run, j), run[j]) == Some(if bonded then Reconnecting else Scanning)
            && (bonded <==> j == i)
  {
    hide *;
    FirstMainIs(run, i);
    StillTop(s, run, i);
    InvInitial(s);
    TopStep(At(s, run, i), run[i]);
    AtNext(s, run, i);
    if j > i {
      if At(s, run, i + 1).state != Idle {
        NotIdleRun(s, run, i + 1, j);
        assert false;
      }
      ForcedFrom(s, run, i + 1, j);
      ForcedStep(At(s, run, j), run[j]);
    }
  }

  lemma FirstMainIs(run: seq<Action>, i: nat)
    requires FirstMain(run, i)
    ensures i < |run| && run[i].Main? && forall k :: 0 <= k < i ==> run[k].Env?
  {
  }

  lemma TopStep(s: Host, a: Action)
    requires s.pc == Top && s.state == Idle && a.Main?
    ensures var bonded := !s.store.forceRepair && a.oracle.yes && s.store.bonds > 0;
            if bonded then Reported(s, a) == Some(Reconnecting) && Next(s, a).state == Reconnecting
            else Reported(s, a) == None && ForcedStart(Next(s, a)) && Next(s, a).state == Idle
  {
  }

  /** The re-pair flag is spent before the first state is reported, and with it set the main task is only on its way to
      clearing it. */
  predicate FlagFresh(s: Host) {
    s.store.forceRepair ==> s.state == Idle && (s.pc == Top || s.pc == PairClear)
  }

  lemma FlagFreshStep(s: Host, a: Action)
    requires FlagFresh(s)
    ensures FlagFresh(Next(s, a))
  {
    hide ScanStep, ConnectStep, LinkStep, Collect;
    FlagStep(s, a);
    match a
    case Main(o) =>
      if !s.store.forceRepair {
        hide MainStep;
      }
    case Env(e) =>
  }

  lemma {:induction false} FlagSpentAtFirstReport(s: Host, run: seq<Action>, j: nat)
    requires Initial(s) && j <= |run|
    ensures FlagFresh(At(s, run, j))
  {
    hide At, Next, FlagFresh;
    if j == 0 {
      AtStart(s, run);
      FreshAtStart(s);
    } else {
      FlagSpentAtFirstReport(s, run, j - 1);
      AtNext(s, run, j - 1);
      FlagFreshStep(At(s, run, j - 1), run[j - 1]);
    }
  }

  lemma FreshAtStart(s: Host)
    requires Initial(s)
    ensures FlagFresh(s)
  {
  }
}
