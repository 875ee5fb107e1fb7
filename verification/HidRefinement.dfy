/** The streaming machine computes what the declarative reading of HidReference says, for every byte
    string, from every idle state (esp_hid/src/esp_hid_common.c:220-401). */
module HidRefinement {
  import opened HidTypes
  import opened ShortItems
  import opened HidReference
  import opened HidMachine

  // ---- wrap-around ----

  lemma WrapAdd16(x: nat, y: nat)
    ensures Low16(Low16(x) + y) == Low16(x + y)
    ensures Low16(x) % 8 == x % 8
  {
  }

  lemma WrapStep8(x: int)
    ensures Low8(Low8(x) + 1) == Low8(x + 1)
    ensures Low8(Low8(x) - 1) == Low8(x - 1)
  {
    Residue(x, x / 0x100, x % 0x100);
    if x % 0x100 == 0xFF {
      Residue(x + 1, x / 0x100 + 1, 0);
    } else {
      Residue(x + 1, x / 0x100, x % 0x100 + 1);
    }
    if x % 0x100 == 0 {
      Residue(x - 1, x / 0x100 - 1, 0xFF);
    } else {
      Residue(x - 1, x / 0x100, x % 0x100 - 1);
    }
  }

  lemma Residue(x: int, q: int, r: u8)
    requires x == 0x100 * q + r
    ensures Low8(x) == r
  {
  }

  // ---- lists ----

  lemma {:induction false} AddAllAppend(l: Listing, a: seq<Group>, b: seq<Group>)
    ensures AddAll(l, a + b) == AddAll(AddAll(l, a), b)
    decreases |a|
  {
    if a == [] {
      assert a + b == b;
    } else {
      assert (a + b)[1..] == a[1..] + b;
      AddAllAppend(Add(l, a[0]), a[1..], b);
    }
  }

  lemma AddAllOne(l: Listing, a: seq<Group>, g: Group)
    ensures AddAll(l, a + [g]) == Add(AddAll(l, a), g)
  {
    AddAllAppend(l, a, [g]);
    assert [g][1..] == [];
    assert AddAll(Add(AddAll(l, a), g), []) == Add(AddAll(l, a), g);
  }

  lemma {:induction false} AddAllGrows(l: Listing, gs: seq<Group>)
    ensures |l.reports| <= |AddAll(l, gs).reports|
    decreases |gs|
  {
    if gs != [] {
      AddAllGrows(Add(l, gs[0]), gs[1..]);
    }
  }

  /** Nothing is listed after an overflow. */
  lemma {:induction false} OverflowStops(l: Listing, a: seq<Group>, b: seq<Group>)
    ensures UpToOverflow(l, a + b)
         == if |AddAll(l, a).reports| <= MAX_REPORTS then UpToOverflow(AddAll(l, a), b) else UpToOverflow(l, a)
    decreases |a|
  {
    if a == [] {
      assert a + b == b;
    } else {
      assert (a + b)[1..] == a[1..] + b;
      AddAllGrows(Add(l, a[0]), a[1..]);
      AddAllGrows(l, a);
      OverflowStops(Add(l, a[0]), a[1..], b);
    }
  }

  lemma OverflowLast(l: Listing, a: seq<Group>, g: Group)
    requires |AddAll(l, a).reports| <= MAX_REPORTS
    ensures UpToOverflow(l, a + [g]) == AddAll(l, a + [g])
  {
    OverflowStops(l, a, [g]);
    AddAllOne(l, a, g);
    assert [g][1..] == [];
  }

  lemma AllBeforeOverflow(l: Listing, gs: seq<Group>)
    ensures |AddAll(l, gs).reports| <= MAX_REPORTS ==> UpToOverflow(l, gs) == AddAll(l, gs)
  {
    OverflowStops(l, gs, []);
    assert gs + [] == gs;
  }

  lemma {:induction false} RunAppend(m: Machine, a: seq<Item>, b: seq<Item>)
    ensures Run(m, a + b) == var r := Run(m, a); if r.ok then Run(r.machine, b) else r
    decreases |a|
  {
    if a == [] {
      assert a + b == b;
    } else {
      assert (a + b)[1..] == a[1..] + b;
      var r := Handle(m, a[0]);
      if r.ok {
        RunAppend(r.machine, a[1..], b);
      }
    }
  }

  lemma RunNone(m: Machine)
    ensures Run(m, []) == Reply(m, true)
  {
  }

  lemma RunOne(m: Machine, cmd: Item)
    ensures Run(m, [cmd]) == Handle(m, cmd)
  {
    assert [cmd][1..] == [];
  }

  // ---- inside one collection ----

  /** A machine after some more groups were committed. */
  function Committed(m: Machine, gs: seq<Group>): Machine {
    if gs == [] then m else m.(newMap := false, temp := Some(AddAll(Base(m), gs)))
  }

  predicate Fits(m: Machine, gs: seq<Group>) {
    |AddAll(Base(m), gs).reports| <= MAX_REPORTS
  }

  lemma CommittedTwice(m: Machine, a: seq<Group>, b: seq<Group>)
    ensures Base(Committed(m, a)) == AddAll(Base(m), a)
    ensures Committed(Committed(m, a), b) == Committed(m, a + b)
    ensures Fits(Committed(m, a), b) == Fits(m, a + b)
  {
    AddAllAppend(Base(m), a, b);
    if b == [] {
      assert a + b == a;
    }
  }

  /** A run refused because the groups gs, in order, took the listing l over 64 items. */
  predicate Overflowed(r: Reply, l: Listing, gs: seq<Group>) {
    !r.ok && r.machine.step == WaitUsagePage && r.machine.temp == Some(Capped(UpToOverflow(l, gs)))
  }

  function ParamsAt(b: seq<Item>, k: nat, page: u16, usage: u16): Params
    requires k <= |b|
  {
    var c := CutsUpTo(b, k, page, usage);
    Params(c.page, c.usage, PageAt(b, k), UsageAt(b, k), IdAt(b, k),
           Low16(Bits(b, RM_INPUT, c.from, k)),
           Low16(Bits(b, RM_OUTPUT, c.from, k)),
           Low16(Bits(b, RM_FEATURE, c.from, k)))
  }

  /** What every variable of the parser holds before item k of a collection body: the inductive
      invariant of the streaming parser, stated outright. */
  function StateAt(m: Machine, b: seq<Item>, k: nat, page: u16, usage: u16): Machine
    requires k <= |b|
  {
    var done := Committed(m, CutsUpTo(b, k, page, usage).groups);
    Machine(WaitEndCollection, Low8(Balance(b, k)), ParamsAt(b, k, page, usage),
            SizeAt(b, k), CountAt(b, k), done.newMap, done.temp)
  }

  lemma WholeAt(b: seq<Item>, k: nat, page: u16, usage: u16)
    requires k <= |b|
    ensures WholeBytes(ParamsAt(b, k, page, usage)) <==> Whole(b, CutsUpTo(b, k, page, usage).from, k)
  {
    var from := CutsUpTo(b, k, page, usage).from;
    WrapAdd16(Bits(b, RM_INPUT, from, k), 0);
    WrapAdd16(Bits(b, RM_OUTPUT, from, k), 0);
    WrapAdd16(Bits(b, RM_FEATURE, from, k), 0);
  }

  /** Committing the wrapped lengths lists what the unbounded sums list. */
  lemma CommitAt(m: Machine, b: seq<Item>, k: nat, page: u16, usage: u16)
    requires k <= |b|
    ensures var c := CutsUpTo(b, k, page, usage);
            var s := StateAt(m, b, k, page, usage);
            var gs := c.groups + [GroupAt(b, c, k)];
            && Add(Base(s), ParamsGroup(s.params)) == AddAll(Base(m), gs)
            && (if Fits(m, gs)
                then Commit(s) == Reply(s.(temp := Committed(m, gs).temp, newMap := false), true)
                else !Commit(s).ok && Commit(s).machine.step == WaitUsagePage
                     && Commit(s).machine.temp == Some(Capped(AddAll(Base(m), gs))))
  {
    var c := CutsUpTo(b, k, page, usage);
    var s := StateAt(m, b, k, page, usage);
    var g := GroupAt(b, c, k);
    CommittedTwice(m, c.groups, [g]);
    assert Base(s) == Base(Committed(m, c.groups));
    AddAllOne(Base(m), c.groups, g);
    SameExpansion(g, ParamsGroup(s.params));
  }

  lemma SameExpansion(g: Group, p: Group)
    requires p == Group(g.page, g.usage, g.id, Low16(g.input), Low16(g.output), Low16(g.feature))
    ensures Expand(p) == Expand(g) && MaskOf(p) == MaskOf(g)
  {
    WrapAdd16(g.input, 0);
    WrapAdd16(g.output, 0);
    WrapAdd16(g.feature, 0);
    hide Low16;
  }

  lemma StepCollection(m: Machine, b: seq<Item>, k: nat, page: u16, usage: u16)
    requires k < |b| && b[k].tag in {RM_COLLECTION, RM_END_COLLECTION} && !ClosesAt(b, k)
    ensures Handle(StateAt(m, b, k, page, usage), b[k]) == Reply(StateAt(m, b, k + 1, page, usage), true)
  {
    WrapStep8(Balance(b, k));
    SameParams(b, k, page, usage);
    hide Handle, CutsUpTo, ParamsAt, SizeAt, CountAt, Committed, Low8, ClosesAt;
    if b[k].tag == RM_END_COLLECTION {
      NotClosing(b, k);
      HandleInnerEnd(StateAt(m, b, k, page, usage), b[k]);
    } else {
      HandleInner(StateAt(m, b, k, page, usage), b[k]);
    }
  }

  lemma HandleInner(s: Machine, cmd: Item)
    requires s.step == WaitEndCollection && cmd.tag == RM_COLLECTION
    ensures Handle(s, cmd) == Reply(s.(depth := Low8(s.depth + 1)), true)
  {
  }

  lemma HandleInnerEnd(s: Machine, cmd: Item)
    requires s.step == WaitEndCollection && cmd.tag == RM_END_COLLECTION && Low8(s.depth - 1) != 0
    ensures Handle(s, cmd) == Reply(s.(depth := Low8(s.depth - 1)), true)
  {
  }

  lemma NotClosing(b: seq<Item>, k: nat)
    requires k < |b| && b[k].tag == RM_END_COLLECTION && !ClosesAt(b, k)
    ensures Low8(Balance(b, k) - 1) != 0 && Balance(b, k + 1) == Balance(b, k) - 1
  {
  }

  /** A collection item changes nothing but the depth. */
  lemma SameParams(b: seq<Item>, k: nat, page: u16, usage: u16)
    requires k < |b| && b[k].tag in {RM_COLLECTION, RM_END_COLLECTION}
    ensures CutsUpTo(b, k + 1, page, usage) == CutsUpTo(b, k, page, usage)
    ensures ParamsAt(b, k + 1, page, usage) == ParamsAt(b, k, page, usage)
    ensures SizeAt(b, k + 1) == SizeAt(b, k) && CountAt(b, k + 1) == CountAt(b, k)
  {
    assert CutsUpTo(b, k + 1, page, usage) == CutsUpTo(b, k, page, usage);
    hide CutsUpTo, Low16;
  }

  lemma StepMain(m: Machine, b: seq<Item>, k: nat, page: u16, usage: u16)
    requires k < |b| && b[k].tag in {RM_INPUT, RM_OUTPUT, RM_FEATURE}
    ensures Handle(StateAt(m, b, k, page, usage), b[k]) == Reply(StateAt(m, b, k + 1, page, usage), true)
  {
    var c := CutsUpTo(b, k, page, usage);
    var bits := Times(SizeAt(b, k), CountAt(b, k));
    WrapAdd16(Bits(b, RM_INPUT, c.from, k), bits);
    WrapAdd16(Bits(b, RM_OUTPUT, c.from, k), bits);
    WrapAdd16(Bits(b, RM_FEATURE, c.from, k), bits);
  }

  /** One item inside a body that neither closes it nor is a Report ID change. */
  lemma StepPlain(m: Machine, b: seq<Item>, k: nat, page: u16, usage: u16)
    requires k < |b| && b[k].tag != RM_REPORT_ID && !ClosesAt(b, k)
    ensures Handle(StateAt(m, b, k, page, usage), b[k]) == Reply(StateAt(m, b, k + 1, page, usage), true)
  {
    if b[k].tag in {RM_INPUT, RM_OUTPUT, RM_FEATURE} {
      StepMain(m, b, k, page, usage);
    } else if b[k].tag in {RM_COLLECTION, RM_END_COLLECTION} {
      StepCollection(m, b, k, page, usage);
    } else {
      assert CutsUpTo(b, k + 1, page, usage) == CutsUpTo(b, k, page, usage);
    }
  }

  lemma StepReportId(m: Machine, b: seq<Item>, k: nat, page: u16, usage: u16)
    requires k < |b| && b[k].tag == RM_REPORT_ID
    ensures var r := Handle(StateAt(m, b, k, page, usage), b[k]);
            var gs := CutsUpTo(b, k + 1, page, usage).groups;
            if Fits(m, gs) || !IsCut(b, CutsUpTo(b, k, page, usage).from, k)
            then r == Reply(StateAt(m, b, k + 1, page, usage), true)
            else !r.ok && r.machine.step == WaitUsagePage && r.machine.temp == Some(Capped(AddAll(Base(m), gs)))
  {
    WholeAt(b, k, page, usage);
    CommitAt(m, b, k, page, usage);
  }

  predicate NeverCloses(b: seq<Item>) {
    forall j :: 0 <= j < |b| ==> !ClosesAt(b, j)
  }

  /** One item of a body, while the reports so far fit. */
  lemma StepBody(m: Machine, b: seq<Item>, k: nat, page: u16, usage: u16)
    requires k < |b| && NeverCloses(b) && Fits(m, CutsUpTo(b, k, page, usage).groups)
    ensures var r, gs := Handle(StateAt(m, b, k, page, usage), b[k]), CutsUpTo(b, k + 1, page, usage).groups;
            if Fits(m, gs) then r == Reply(StateAt(m, b, k + 1, page, usage), true) else Overflowed(r, Base(m), gs)
  {
    assert !ClosesAt(b, k);
    CutsOverflow(m, b, k, page, usage);
    hide Handle, StateAt, Fits, AddAll, ClosesAt;
    if b[k].tag == RM_REPORT_ID {
      StepReportId(m, b, k, page, usage);
    } else {
      StepPlain(m, b, k, page, usage);
    }
  }

  /** One more position adds at most one group, the one an overflow ends with. */
  lemma CutsOverflow(m: Machine, b: seq<Item>, k: nat, page: u16, usage: u16)
    requires k < |b|
    ensures var c, d := CutsUpTo(b, k, page, usage), CutsUpTo(b, k + 1, page, usage);
            if Fits(m, c.groups)
            then Fits(m, d.groups) || UpToOverflow(Base(m), d.groups) == AddAll(Base(m), d.groups)
            else !Fits(m, d.groups) && UpToOverflow(Base(m), d.groups) == UpToOverflow(Base(m), c.groups)
  {
    var c, d := CutsUpTo(b, k, page, usage), CutsUpTo(b, k + 1, page, usage);
    if d.groups != c.groups {
      var g := GroupAt(b, c, k);
      OverflowStops(Base(m), c.groups, [g]);
      AddAllAppend(Base(m), c.groups, [g]);
      AddAllGrows(AddAll(Base(m), c.groups), [g]);
      if Fits(m, c.groups) {
        OverflowLast(Base(m), c.groups, g);
      }
    }
  }

  /** The streaming invariant holds at every position of a body, as long as the reports fit;
      otherwise the run has been refused, is idle, and holds the reports up to the overflow. */
  lemma {:induction false} RunBody(m: Machine, b: seq<Item>, k: nat, page: u16, usage: u16)
    requires k <= |b| && NeverCloses(b) && Fits(m, [])
    ensures var r := Run(StateAt(m, b, 0, page, usage), b[..k]);
            if Fits(m, CutsUpTo(b, k, page, usage).groups)
            then r == Reply(StateAt(m, b, k, page, usage), true)
            else Overflowed(r, Base(m), CutsUpTo(b, k, page, usage).groups)
  {
    NoCutsYet(b, page, usage);
    hide Run, Handle, StateAt, CutsUpTo, Fits, UpToOverflow, AddAll, ClosesAt, Capped;
    if k == 0 {
      RunNone(StateAt(m, b, 0, page, usage));
      assert b[..0] == [];
    } else {
      var s, t, cmd := StateAt(m, b, 0, page, usage), StateAt(m, b, k - 1, page, usage), b[k - 1];
      RunBody(m, b, k - 1, page, usage);
      CutsOverflow(m, b, k - 1, page, usage);
      assert b[..k] == b[..k - 1] + [cmd];
      RunAppend(s, b[..k - 1], [cmd]);
      if Fits(m, CutsUpTo(b, k - 1, page, usage).groups) {
        RunOne(t, cmd);
        StepBody(m, b, k - 1, page, usage);
      } else {
        SameOverflow(m, Run(s, b[..k]), CutsUpTo(b, k - 1, page, usage).groups, CutsUpTo(b, k, page, usage).groups);
      }
    }
  }

  lemma NoCutsYet(b: seq<Item>, page: u16, usage: u16)
    ensures CutsUpTo(b, 0, page, usage).groups == []
  {
  }

  lemma SameOverflow(m: Machine, r: Reply, a: seq<Group>, b: seq<Group>)
    requires Overflowed(r, Base(m), a) && UpToOverflow(Base(m), b) == UpToOverflow(Base(m), a)
    ensures !r.ok && Overflowed(r, Base(m), b)
  {
  }

  // ---- closing a collection, and the items between collections ----

  lemma {:induction false} BalancePrefix(b: seq<Item>, c: nat, k: nat)
    requires k <= c <= |b|
    ensures Balance(b[..c], k) == Balance(b, k)
  {
    if k > 0 {
      BalancePrefix(b, c, k - 1);
    }
  }

  lemma PrefixNeverCloses(b: seq<Item>)
    ensures NeverCloses(b[..CloseFrom(b, 0)])
  {
    var c := CloseFrom(b, 0);
    forall j | 0 <= j < c
      ensures !ClosesAt(b[..c], j)
    {
      BalancePrefix(b, c, j + 1);
      assert !ClosesAt(b, j);
    }
  }

  /** x is between collections and holds what m holds. */
  predicate IdleWith(x: Machine, m: Machine) {
    x.step == WaitUsagePage && x.newMap == m.newMap && x.temp == m.temp
  }

  lemma CloseStep(m: Machine, b: seq<Item>, end: Item, page: u16, usage: u16)
    requires end.tag == RM_END_COLLECTION && (Balance(b, |b|) - 1) % 0x100 == 0
    requires Fits(m, CutsUpTo(b, |b|, page, usage).groups)
    ensures var r, gs := Handle(StateAt(m, b, |b|, page, usage), end), GroupsOf(Application(page, usage, b, true));
            if Fits(m, gs) then r.ok && IdleWith(r.machine, Committed(m, gs)) else Overflowed(r, Base(m), gs)
  {
    hide Handle, Commit, GroupsOf, CutsUpTo, Balance, Whole, StateAt, UpToOverflow, AddAll, WholeBytes, Capped;
    var c := CutsUpTo(b, |b|, page, usage);
    var s := StateAt(m, b, |b|, page, usage);
    OverflowLast(Base(m), c.groups, GroupAt(b, c, |b|));
    StateCloses(m, b, page, usage);
    CommitAt(m, b, |b|, page, usage);
    EndReply(s, end);
    GroupsOfClosed(b, page, usage);
  }

  /** Before a closing item the depth is 1, and the map is that of the groups so far. */
  lemma StateCloses(m: Machine, b: seq<Item>, page: u16, usage: u16)
    requires (Balance(b, |b|) - 1) % 0x100 == 0
    ensures var s, c := StateAt(m, b, |b|, page, usage), CutsUpTo(b, |b|, page, usage);
            && s.step == WaitEndCollection && s.depth == 1
            && s.newMap == Committed(m, c.groups).newMap && s.temp == Committed(m, c.groups).temp
            && (WholeBytes(s.params) <==> Whole(b, c.from, |b|))
  {
    WrapStep8(Balance(b, |b|));
    WholeAt(b, |b|, page, usage);
    hide CutsUpTo, Whole, WholeBytes, Balance;
  }

  lemma GroupsOfClosed(b: seq<Item>, page: u16, usage: u16)
    ensures var c := CutsUpTo(b, |b|, page, usage);
            GroupsOf(Application(page, usage, b, true))
            == if Whole(b, c.from, |b|) then c.groups + [GroupAt(b, c, |b|)] else c.groups
  {
    var gs := CutsUpTo(b, |b|, page, usage).groups;
    assert gs + [] == gs;
  }

  /** The End Collection that brings the depth to 0. */
  lemma EndReply(s: Machine, end: Item)
    requires s.step == WaitEndCollection && end.tag == RM_END_COLLECTION && s.depth == 1
    ensures var r := Handle(s, end);
            && r.machine.step == WaitUsagePage
            && (if WholeBytes(s.params)
                then r.ok == Commit(s).ok && r.machine.newMap == Commit(s).machine.newMap
                     && r.machine.temp == Commit(s).machine.temp
                else r.ok && r.machine.newMap == s.newMap && r.machine.temp == s.temp)
  {
  }

  lemma RunThrough(s: Machine, b: seq<Item>, end: Item, rest: seq<Item>)
    ensures var r, all := Run(s, b), Run(s, b + [end] + rest);
            if r.ok
            then all == var q := Handle(r.machine, end); if q.ok then Run(q.machine, rest) else q
            else all == r
  {
    RunAppend(s, b, [end]);
    RunOne(Run(s, b).machine, end);
    RunAppend(s, b + [end], rest);
  }

  /** What overflows before the end of a collection overflows with it. */
  lemma ClosedOverflow(m: Machine, a: Application)
    ensures var gs := CutsUpTo(a.body, |a.body|, a.page, a.usage).groups;
            !Fits(m, gs) ==>
              && !Fits(m, GroupsOf(a))
              && UpToOverflow(Base(m), GroupsOf(a)) == UpToOverflow(Base(m), gs)
  {
    var gs := CutsUpTo(a.body, |a.body|, a.page, a.usage).groups;
    var last := GroupsOf(a)[|gs|..];
    assert GroupsOf(a) == gs + last;
    AddAllAppend(Base(m), gs, last);
    AddAllGrows(AddAll(Base(m), gs), last);
    OverflowStops(Base(m), gs, last);
  }

  /** A collection that is closed: its groups are appended, in order, or the call is refused. */
  lemma RunApplication(m: Machine, b: seq<Item>, end: Item, rest: seq<Item>, page: u16, usage: u16)
    returns (x: Machine)
    requires NeverCloses(b) && Fits(m, [])
    requires end.tag == RM_END_COLLECTION && (Balance(b, |b|) - 1) % 0x100 == 0
    ensures var gs := GroupsOf(Application(page, usage, b, true));
            var r := Run(StateAt(m, b, 0, page, usage), b + [end] + rest);
            if Fits(m, gs)
            then IdleWith(x, Committed(m, gs)) && r == Run(x, rest)
            else Overflowed(r, Base(m), gs)
  {
    var s, e := StateAt(m, b, 0, page, usage), StateAt(m, b, |b|, page, usage);
    hide Run, Handle, StateAt, CutsUpTo, GroupsOf, Balance;
    RunBody(m, b, |b|, page, usage);
    assert b[..|b|] == b;
    RunThrough(s, b, end, rest);
    x := Handle(e, end).machine;
    if Fits(m, CutsUpTo(b, |b|, page, usage).groups) {
      CloseStep(m, b, end, page, usage);
    } else {
      ClosedOverflow(m, Application(page, usage, b, true));
    }
  }

  lemma HeaderStates(m: Machine, p: Item, u: Item, c: Item, b: seq<Item>)
    requires m.step == WaitUsagePage
    requires p.tag == RM_USAGE_PAGE && u.tag == RM_USAGE && c.tag == RM_COLLECTION && c.Value() == 1
    ensures var r1 := Handle(m, p);
            var r2 := Handle(r1.machine, u);
            var r3 := Handle(r2.machine, c);
            && r1.ok && r2.ok
            && r3 == Reply(StateAt(m, b, 0, Low16(p.Value()), Low16(u.Value())), true)
  {
  }

  lemma RunCons(m: Machine, items: seq<Item>)
    requires items != [] && Handle(m, items[0]).ok
    ensures Run(m, items) == Run(Handle(m, items[0]).machine, items[1..])
  {
  }

  lemma RunHeader(m: Machine, items: seq<Item>, b: seq<Item>)
    requires m.step == WaitUsagePage && |items| >= 3
    requires items[0].tag == RM_USAGE_PAGE && items[1].tag == RM_USAGE
    requires items[2].tag == RM_COLLECTION && items[2].Value() == 1
    ensures Run(m, items)
         == Run(StateAt(m, b, 0, Low16(items[0].Value()), Low16(items[1].Value())), items[3..])
  {
    hide Run, Handle, StateAt;
    HeaderStates(m, items[0], items[1], items[2], b);
    RunCons(m, items);
    var m1 := Handle(m, items[0]).machine;
    RunCons(m1, items[1..]);
    var m2 := Handle(m1, items[1]).machine;
    RunCons(m2, items[2..]);
    assert items[1..][1..] == items[2..] && items[2..][1..] == items[3..];
  }

  /** What running some items from between collections must give. */
  predicate RunsTo(m: Machine, items: seq<Item>) {
    var r, l := Run(m, items), Split(items);
    var gs := AllGroups(l.applications);
    if Fits(m, gs) then
      && (r.ok <==> l.ending != Malformed)
      && (r.machine.step == WaitUsagePage <==> l.ending != Inside)
      && r.machine.newMap == Committed(m, gs).newMap
      && r.machine.temp == Committed(m, gs).temp
    else Overflowed(r, Base(m), gs)
  }

  lemma RunsToNoApplication(m: Machine, items: seq<Item>)
    requires m.step == WaitUsagePage && Fits(m, [])
    requires Split(items).applications == []
    ensures RunsTo(m, items)
  {
    if items != [] && items[0].tag == RM_USAGE_PAGE {
      var m1 := Handle(m, items[0]).machine;
      if |items| > 1 && items[1].tag == RM_USAGE {
        assert items[1..][0] == items[1] && items[1..][1..] == items[2..];
        assert Run(m1, items[1..]) == Run(Handle(m1, items[1]).machine, items[2..]);
      }
    }
  }

  lemma AllGroupsCons(a: Application, more: seq<Application>)
    ensures AllGroups([a] + more) == GroupsOf(a) + AllGroups(more)
  {
    assert ([a] + more)[1..] == more;
  }

  /** RunsTo after a first closed application whose groups fit. */
  lemma RunsToCons(m: Machine, x: Machine, items: seq<Item>, a: Application, rest: seq<Item>)
    requires Fits(m, GroupsOf(a)) && IdleWith(x, Committed(m, GroupsOf(a)))
    requires Run(m, items) == Run(x, rest) && RunsTo(x, rest)
    requires Split(items) == Layout([a] + Split(rest).applications, Split(rest).ending)
    ensures RunsTo(m, items)
  {
    hide Run, Split, GroupsOf, AllGroups;
    var gs := AllGroups(Split(rest).applications);
    AllGroupsCons(a, Split(rest).applications);
    CommittedTwice(m, GroupsOf(a), gs);
    SameStock(x, Committed(m, GroupsOf(a)), gs);
    OverflowStops(Base(m), GroupsOf(a), gs);
  }

  lemma SameStock(x: Machine, y: Machine, gs: seq<Group>)
    requires x.newMap == y.newMap && x.temp == y.temp
    ensures Committed(x, gs).newMap == Committed(y, gs).newMap
    ensures Committed(x, gs).temp == Committed(y, gs).temp
    ensures Fits(x, gs) == Fits(y, gs) && Base(x) == Base(y)
  {
  }

  /** RunsTo when the first application already overflows. */
  lemma RunsToOverflow(m: Machine, items: seq<Item>, a: Application, more: seq<Application>, ending: Ending)
    requires Split(items) == Layout([a] + more, ending) && !Fits(m, GroupsOf(a))
    requires Overflowed(Run(m, items), Base(m), GroupsOf(a))
    ensures RunsTo(m, items)
  {
    AllGroupsCons(a, more);
    OverflowStops(Base(m), GroupsOf(a), AllGroups(more));
    AddAllAppend(Base(m), GroupsOf(a), AllGroups(more));
    AddAllGrows(AddAll(Base(m), GroupsOf(a)), AllGroups(more));
  }

  /** RunsTo when the only application is never closed. */
  lemma RunsToUnclosed(m: Machine, items: seq<Item>, page: u16, usage: u16, b: seq<Item>)
    requires Split(items) == Layout([Application(page, usage, b, false)], Inside)
    requires NeverCloses(b) && Fits(m, []) && Run(m, items) == Run(StateAt(m, b, 0, page, usage), b)
    ensures RunsTo(m, items)
  {
    var a := Application(page, usage, b, false);
    RunBody(m, b, |b|, page, usage);
    assert b[..|b|] == b;
    AllGroupsCons(a, []);
    var gs := CutsUpTo(b, |b|, page, usage).groups;
    assert [a] + [] == [a];
    assert gs + [] == gs && GroupsOf(a) == gs && AllGroups([a]) == gs;
  }

  predicate HasHeader(items: seq<Item>) {
    && |items| >= 3 && items[0].tag == RM_USAGE_PAGE && items[1].tag == RM_USAGE
    && items[2].tag == RM_COLLECTION && items[2].Value() == 1
  }

  lemma ClosingItem(b: seq<Item>)
    requires CloseFrom(b, 0) < |b|
    ensures var c := CloseFrom(b, 0);
            && b == b[..c] + [b[c]] + b[c + 1..]
            && b[c].tag == RM_END_COLLECTION && (Balance(b[..c], |b[..c]|) - 1) % 0x100 == 0
  {
    BalancePrefix(b, CloseFrom(b, 0), CloseFrom(b, 0));
  }

  /** The first application of the items, and the rest of them. */
  function FirstApplication(items: seq<Item>): Application
    requires HasHeader(items)
  {
    var page, usage, rest := Low16(items[0].Value()), Low16(items[1].Value()), items[3..];
    var c := CloseFrom(rest, 0);
    Application(page, usage, rest[..c], c < |rest|)
  }

  function AfterFirst(items: seq<Item>): (r: seq<Item>)
    requires HasHeader(items) && FirstApplication(items).closed
    ensures |r| < |items|
  {
    items[3..][CloseFrom(items[3..], 0) + 1..]
  }

  lemma RunOpen(m: Machine, items: seq<Item>)
    requires m.step == WaitUsagePage && Fits(m, []) && HasHeader(items) && !FirstApplication(items).closed
    ensures RunsTo(m, items)
  {
    var rest := items[3..];
    PrefixNeverCloses(rest);
    assert rest[..|rest|] == rest;
    RunHeader(m, items, rest);
    RunsToUnclosed(m, items, Low16(items[0].Value()), Low16(items[1].Value()), rest);
  }

  lemma RunFirst(m: Machine, items: seq<Item>) returns (x: Machine)
    requires m.step == WaitUsagePage && Fits(m, []) && HasHeader(items) && FirstApplication(items).closed
    ensures var gs := GroupsOf(FirstApplication(items));
            if Fits(m, gs)
            then IdleWith(x, Committed(m, gs)) && Run(m, items) == Run(x, AfterFirst(items))
            else Overflowed(Run(m, items), Base(m), gs)
  {
    var page, usage, rest := Low16(items[0].Value()), Low16(items[1].Value()), items[3..];
    var c := CloseFrom(rest, 0);
    PrefixNeverCloses(rest);
    ClosingItem(rest);
    hide Run, StateAt, GroupsOf, Balance, CloseFrom, Overflowed, Fits;
    RunHeader(m, items, rest[..c]);
    x := RunApplication(m, rest[..c], rest[c], rest[c + 1..], page, usage);
  }

  lemma SplitFirst(items: seq<Item>)
    ensures Split(items).applications != [] <==> HasHeader(items)
    ensures HasHeader(items) ==>
              var a := FirstApplication(items);
              Split(items) == if !a.closed then Layout([a], Inside)
                              else var l := Split(AfterFirst(items)); Layout([a] + l.applications, l.ending)
  {
    if HasHeader(items) {
      assert items[3..][..|items[3..]|] == items[3..];
    }
  }

  /** Streaming equals the two-phase reading, for every item list and every idle state. */
  lemma {:induction false} RunIsSplit(m: Machine, items: seq<Item>)
    requires m.step == WaitUsagePage && Fits(m, [])
    ensures RunsTo(m, items)
    decreases |items|
  {
    hide *;
    SplitFirst(items);
    if !HasHeader(items) {
      RunsToNoApplication(m, items);
    } else if !FirstApplication(items).closed {
      RunOpen(m, items);
    } else {
      var a, more := FirstApplication(items), AfterFirst(items);
      var x := RunFirst(m, items);
      if Fits(m, GroupsOf(a)) {
        IdleFits(m, x, GroupsOf(a));
        RunIsSplit(x, more);
        RunsToCons(m, x, items, a, more);
      } else {
        RunsToOverflow(m, items, a, Split(more).applications, Split(more).ending);
      }
    }
  }

  lemma IdleFits(m: Machine, x: Machine, gs: seq<Group>)
    requires Fits(m, gs) && IdleWith(x, Committed(m, gs))
    ensures x.step == WaitUsagePage && Fits(x, [])
  {
    CommittedTwice(m, gs, []);
    assert gs + [] == gs;
  }
}
