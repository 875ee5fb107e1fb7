/** The scan list between two resets, over all interleavings of the scan callback with the main task: the
    indexes the application was shown keep naming the same keyboards (src/bt_kbd.c:210-236, 424-428,
    457-469, 484-527). */
module HostScanList {
  import opened HidTypes
  import opened ScanList
  import opened CommandQueue
  import opened HostMachine
  import opened HostSafety

  predicate NoResetBetween(s: Host, run: seq<Action>, i: nat, j: nat)
    requires i <= j <= |run|
  {
    forall k :: i <= k < j ==> !ResetsList(At(s, run, k), run[k])
  }

  lemma MainKeepsList(s: Host, o: Oracle)
    requires !ResetsList(s, Main(o))
    ensures MainStep(s, o).scan.devs == s.scan.devs
  {
  }

  lemma ExtendsSelf(l: seq<Device>)
    ensures Extends(l, l)
  {
  }

  lemma ListStep(s: Host, a: Action)
    requires Inv(s) && !ResetsList(s, a)
    ensures Extends(s.scan.devs, Next(s, a).scan.devs)
  {
    hide MainStep, Extends, WellFormed, Collect, InPlace;
    ExtendsSelf(s.scan.devs);
    match a
    case Main(o) => MainKeepsList(s, o);
    case Env(e) =>
      match e
      case Discovery(d) => CollectKeeps(s.scan.devs, d);
      case _ =>
  }

  /** Between two resets the list only grows at its end; entries change in signal strength alone. */
  lemma {:induction false} ListOnlyGrows(s: Host, run: seq<Action>, i: nat, j: nat)
    requires Inv(s) && i <= j <= |run| && NoResetBetween(s, run, i, j)
    ensures Extends(At(s, run, i).scan.devs, At(s, run, j).scan.devs)
  {
    hide At, Next, Inv, ResetsList, Extends;
    if i == j {
      ExtendsSelf(At(s, run, i).scan.devs);
    } else {
      ListOnlyGrows(s, run, i, j - 1);
      AtNext(s, run, j - 1);
      Reachable(s, run, j - 1);
      ListStep(At(s, run, j - 1), run[j - 1]);
      ExtendsTransitive(At(s, run, i).scan.devs, At(s, run, j - 1).scan.devs, At(s, run, j).scan.devs);
    }
  }

  lemma FrozenStep(s: Host, a: Action)
    requires !s.scan.active && !ResetsList(s, a)
    ensures Next(s, a).scan.devs == s.scan.devs
  {
    match a
    case Main(o) =>
      hide MainStep;
      MainKeepsList(s, o);
    case Env(e) =>
  }

  /** Outside the scan loop, and from the moment a selection cancels the scan, the list does not change at all. */
  lemma ListFrozenOutsideScan(s: Host, run: seq<Action>, i: nat)
    requires Inv(s) && i < |run| && !ScanPc(At(s, run, i).pc) && !ResetsList(At(s, run, i), run[i])
    ensures At(s, run, i + 1).scan.devs == At(s, run, i).scan.devs
  {
    hide At, Next, ScanPc, ResetsList, WellFormed;
    Reachable(s, run, i);
    AtNext(s, run, i);
    FrozenStep(At(s, run, i), run[i]);
  }

  // ---- the device opened ----

  /** The main task goes on to open a device of the list. */
  predicate OpensOneOf(t: Host, shown: seq<Device>) {
    exists n :: 0 <= n < |shown| && t.pc == ConnectOpen(shown[n].addr)
  }

  /** In a list that extends the one shown, an index past the latter names a device that was not shown. */
  lemma ShownIffInRange(shown: seq<Device>, list: seq<Device>, k: nat)
    requires Extends(shown, list) && WellFormed(list) && k < |list|
    ensures k < |shown| ==> list[k].addr == shown[k].addr
    ensures (exists n :: 0 <= n < |shown| && shown[n].addr == list[k].addr) <==> k < |shown|
  {
    if n :| 0 <= n < |shown| && shown[n].addr == list[k].addr {
      assert SameDevice(shown[n], list[n]);
    }
    if k < |shown| {
      assert SameDevice(shown[k], list[k]);
    }
  }

  /** What the application can see to: no re-pair request is queued at i, none is sent before j, and no other
      selection has been taken up in between, that is, CONNECTING has not been reported. */
  predicate SameScan(s: Host, run: seq<Action>, i: nat, j: nat)
    requires i <= j <= |run|
  {
    && NoStart(At(s, run, i).queue)
    && (forall k :: i <= k < j ==> run[k] != Env(SendStart) && Reported(At(s, run, k), run[k]) != Some(Connecting))
  }

  /** In the scan loop with a device to choose from and no re-pair request in sight. */
  predicate Choosing(s: Host) {
    && (|| s.pc.ScanPublish? || s.pc.ScanReceive? || s.pc.ScanValidate? || s.pc.ScanCheck?
        || s.pc.SelectCancel? || s.pc.SelectRead?)
    && s.scan.devs != [] && NoStart(s.queue)
  }

  lemma MainChoosing(s: Host, o: Oracle)
    requires Choosing(s) && !s.pc.SelectRead?
    ensures Choosing(MainStep(s, o)) && !ResetsList(s, Main(o))
  {
    hide ReconnectStep, PairStep, ConnectStep, LinkStep;
  }

  lemma EnvChoosing(s: Host, e: Event)
    requires Choosing(s) && e != SendStart
    ensures Choosing(EnvStep(s, e))
  {
  }

  lemma ChoosingStep(s: Host, a: Action)
    requires Choosing(s) && a != Env(SendStart) && Reported(s, a) != Some(Connecting)
    ensures Choosing(Next(s, a)) && !ResetsList(s, a)
  {
    hide MainStep, EnvStep, Choosing;
    match a
    case Main(o) => MainChoosing(s, o);
    case Env(e) => EnvChoosing(s, e);
  }

  lemma NoResetGrows(s: Host, run: seq<Action>, i: nat, j: nat)
    requires i <= j < |run| && NoResetBetween(s, run, i, j) && !ResetsList(At(s, run, j), run[j])
    ensures NoResetBetween(s, run, i, j + 1)
  {
    hide At, ResetsList;
  }

  /** Without a request and without another selection the list is not reset. */
  lemma {:induction false} SameScanNoReset(s: Host, run: seq<Action>, i: nat, j: nat)
    requires i <= j <= |run| && Choosing(At(s, run, i)) && SameScan(s, run, i, j)
    ensures Choosing(At(s, run, j)) && NoResetBetween(s, run, i, j)
  {
    hide At, Next, Choosing, ResetsList, Reported, NoStart;
    if i < j {
      SameScanNoReset(s, run, i, j - 1);
      AtNext(s, run, j - 1);
      ChoosingStep(At(s, run, j - 1), run[j - 1]);
      NoResetGrows(s, run, i, j - 1);
    }
  }

  lemma PublishedChoosing(s: Host, a: Action)
    requires Published(s, a).Some? && NoStart(s.queue)
    ensures Published(s, a) == Some(s.scan.devs) && (s.scan.devs != [] ==> Choosing(s))
  {
  }

  lemma ReadOpens(s: Host, a: Action)
    requires s.pc.SelectRead? && a.Main? && 0 <= s.pc.k < |s.scan.devs|
    ensures Next(s, a).pc == ConnectOpen(s.scan.devs[s.pc.k].addr)
  {
  }

  /** A selection taken up after a list was published, with no re-pair request queued then or sent since and no other
      selection taken up: the device opened is one of those published exactly when its index is within the published
      list, and then it is the one published there. An index past that list is not ignored when the list has
      grown meanwhile. */
  lemma SelectionMeansWhatWasShown(s: Host, run: seq<Action>, i: nat, j: nat, k: int)
    requires Inv(s) && i <= j < |run| && SameScan(s, run, i, j)
    requires Published(At(s, run, i), run[i]).Some?
    requires At(s, run, j).pc == SelectRead(k) && run[j].Main?
    ensures var shown := Published(At(s, run, i), run[i]).value;
            && 0 <= k
            && (OpensOneOf(At(s, run, j + 1), shown) <==> k < |shown|)
            && (k < |shown| ==> At(s, run, j + 1).pc == ConnectOpen(shown[k].addr))
  {
    hide At, Next, Inv, InPlace, Choosing, NoResetBetween, Reported, Published, Extends, WellFormed;
    var list, shown := At(s, run, j).scan.devs, At(s, run, i).scan.devs;
    PublishedChoosing(At(s, run, i), run[i]);
    SelectionInRange(s, run, j, k);
    AtNext(s, run, j);
    ReadOpens(At(s, run, j), run[j]);
    if shown != [] {
      SameScanNoReset(s, run, i, j);
      ListOnlyGrows(s, run, i, j);
      ListWellFormed(s, run, j);
      ShownIffInRange(shown, list, k);
    }
  }

  lemma ListWellFormed(s: Host, run: seq<Action>, i: nat)
    requires Inv(s) && i <= |run|
    ensures WellFormed(At(s, run, i).scan.devs)
  {
    Reachable(s, run, i);
  }

  /** A selection is read only at a position of the current list: an index out of range is ignored. */
  lemma SelectionInRange(s: Host, run: seq<Action>, j: nat, k: int)
    requires Inv(s) && j <= |run| && At(s, run, j).pc == SelectRead(k)
    ensures 0 <= k < |At(s, run, j).scan.devs|
  {
    Reachable(s, run, j);
  }

  /** Main steps strictly between i and j: none. */
  predicate NextMain(run: seq<Action>, i: nat, j: nat) {
    i < j < |run| && run[j].Main? && forall k :: i < k < j ==> run[k].Env?
  }

  lemma {:induction false} OnlyEnv(s: Host, run: seq<Action>, i: nat, j: nat)
    requires i <= j <= |run| && forall k :: i <= k < j ==> run[k].Env?
    ensures At(s, run, j).pc == At(s, run, i).pc && NoResetBetween(s, run, i, j)
  {
    hide *;
    if i == j {
      NoResetNone(s, run, i);
    } else {
      OnlyEnv(s, run, i, j - 1);
      AtNext(s, run, j - 1);
      EnvKeepsPc(At(s, run, j - 1), run[j - 1]);
      NoResetGrows(s, run, i, j - 1);
    }
  }

  lemma NoResetNone(s: Host, run: seq<Action>, i: nat)
    requires i <= |run|
    ensures NoResetBetween(s, run, i, i)
  {
    hide At, ResetsList;
  }

  lemma EnvKeepsPc(s: Host, a: Action)
    requires a.Env?
    ensures Next(s, a).pc == s.pc && !ResetsList(s, a)
  {
    hide MainStep;
  }

  lemma TakesSelection(s: Host, a: Action, k: int)
    requires s.pc == ScanReceive && s.queue != [] && s.queue[0] == SelectDevice(k) && a.Main?
    ensures Next(s, a).pc == ScanValidate(k) && Next(s, a).scan == s.scan
  {
  }

  lemma Validates(s: Host, a: Action, k: int)
    requires s.pc == ScanValidate(k) && a.Main?
    ensures Next(s, a) == s.(pc := if 0 <= k < |s.scan.devs| then SelectCancel(k) else ScanCheck)
  {
  }

  /** What becomes of a selection after the main task has taken it from the queue, whatever is heard in between: an
      index in the list at that moment is accepted, one that no list can have is ignored and the scan goes
      on as it was. */
  lemma SelectionOutcome(s: Host, run: seq<Action>, i: nat, j: nat, k: int)
    requires Inv(s) && NextMain(run, i, j) && At(s, run, i).pc == ScanReceive && run[i].Main?
    requires At(s, run, i).queue != [] && At(s, run, i).queue[0] == SelectDevice(k)
    ensures 0 <= k < |At(s, run, i).scan.devs| ==> At(s, run, j + 1).pc == SelectCancel(k)
    ensures k < 0 || k >= MAX_DEVICES ==> At(s, run, j + 1) == At(s, run, j).(pc := ScanCheck)
  {
    hide At, Next, Inv, Extends;
    AtNext(s, run, i);
    TakesSelection(At(s, run, i), run[i], k);
    OnlyEnv(s, run, i + 1, j);
    Reachable(s, run, i + 1);
    GrowsFrom(s, run, i + 1, j);
    ListWellFormed(s, run, j);
    AtNext(s, run, j);
    Validates(At(s, run, j), run[j], k);
  }

  lemma GrowsFrom(s: Host, run: seq<Action>, i: nat, j: nat)
    requires Inv(s) && i <= j <= |run| && NoResetBetween(s, run, i, j)
    ensures |At(s, run, i).scan.devs| <= |At(s, run, j).scan.devs|
  {
    ListOnlyGrows(s, run, i, j);
  }

  predicate TimingOut(pc: Pc) {
    pc == TimeoutCancel || pc == TimeoutReset
  }

  lemma TimeoutEntered(s: Host, a: Action)
    requires TimingOut(Next(s, a).pc)
    ensures TimingOut(s.pc) || s.scan.devs == []
  {
  }

  /** A timeout begins exactly when the scan is past its deadline and nothing has been heard. */
  lemma TimeoutBegins(s: Host, a: Action)
    requires !TimingOut(s.pc)
    ensures TimingOut(Next(s, a).pc) <==> a.Main? && s.pc == ScanCheck && s.scan.devs == [] && a.oracle.expired
  {
    if a.Env? {
      EnvKeepsPc(s, a);
      hide Next;
    }
  }

  /** Once a list with a device in it has been published, no timeout is under way until something else
      resets the list. */
  lemma {:induction false} ShownListNeverTimesOut(s: Host, run: seq<Action>, i: nat, j: nat)
    requires Inv(s) && i < j <= |run| && NoResetBetween(s, run, i, j)
    requires Published(At(s, run, i), run[i]).Some? && Published(At(s, run, i), run[i]).value != []
    ensures !TimingOut(At(s, run, j).pc)
  {
    hide At, Next, Inv, ResetsList, Published, TimingOut;
    AtNext(s, run, j - 1);
    var shown := At(s, run, i);
    PublishingStep(shown, run[i]);
    if j > i + 1 {
      ShownListNeverTimesOut(s, run, i, j - 1);
      ListOnlyGrows(s, run, i, j - 1);
      if TimingOut(At(s, run, j).pc) {
        TimeoutEntered(At(s, run, j - 1), run[j - 1]);
      }
    }
  }

  lemma PublishingStep(s: Host, a: Action)
    requires Published(s, a).Some?
    ensures Published(s, a) == Some(s.scan.devs) && !TimingOut(Next(s, a).pc)
  {
  }

  /** A scan timeout never takes away an index the application has seen: the lists published since the
      previous reset were all empty. */
  lemma TimeoutResetsOnlyEmptyLists(s: Host, run: seq<Action>, i: nat, j: nat)
    requires Inv(s) && i < j < |run| && NoResetBetween(s, run, i, j)
    requires Published(At(s, run, i), run[i]).Some?
    requires At(s, run, j).pc == TimeoutReset && run[j].Main?
    ensures Published(At(s, run, i), run[i]) == Some([])
  {
    hide At, Inv, ResetsList;
    if Published(At(s, run, i), run[i]).value != [] {
      ShownListNeverTimesOut(s, run, i, j);
    }
  }
}
