/** What a caller of the report-descriptor parser can rely on: the result of a call, what one call leaves
    behind for the next, how descriptors concatenate, and where the declared bits go. */
module HidLaws {
  import opened HidTypes
  import opened ShortItems
  import opened HidReference
  import opened HidMachine
  import opened HidRefinement

  // ---- one call ----

  /** The call ends with a header or a collection still open and nothing refused by the machine. */
  predicate LeftInside(data: seq<u8>) {
    && Split(Tokenise(data).items).ending == Inside
    && |AddAll(EMPTY, DescriptorGroups(data)).reports| <= MAX_REPORTS
  }

  /** The map a call that does not return one leaves allocated when it finds `stale`: of too many reports it
      holds the first 64. */
  function LeftOver(stale: Option<Listing>, data: seq<u8>): Option<Listing> {
    if DescriptorGroups(data) == [] then stale else Some(Capped(UpToOverflow(EMPTY, DescriptorGroups(data))))
  }

  lemma ParseRun(m: Machine, data: seq<u8>)
    requires m.step == WaitUsagePage
    ensures RunsTo(m.(newMap := true), Tokenise(data).items)
  {
    RunIsSplit(m.(newMap := true), Tokenise(data).items);
  }

  /** Streaming refines the two-phase reading: result, idleness and left-over map of every call made
      from between collections, for every byte string and whatever the other variables hold. */
  lemma ParseIsReference(m: Machine, data: seq<u8>)
    requires m.step == WaitUsagePage
    ensures Parse(m, data).outcome == ResultWith(m.temp, data)
    ensures Parse(m, data).machine.step == WaitUsagePage <==> !LeftInside(data)
    ensures Parse(m, data).machine.temp == if Parse(m, data).outcome.Parsed? then None else LeftOver(m.temp, data)
  {
    ParseRun(m, data);
    AllBeforeOverflow(EMPTY, DescriptorGroups(data));
    hide Run, Split, AllGroups, UpToOverflow, AddAll, Dominant, AppearanceOf, Tokenise;
    assert Base(m.(newMap := true)) == EMPTY;
  }

  /** A descriptor needing more than 64 items is refused, never cut short; one that fits is returned whole. */
  lemma NeverTruncated(m: Machine, data: seq<u8>)
    requires m.step == WaitUsagePage && DescriptorGroups(data) != []
    ensures var all := AddAll(EMPTY, DescriptorGroups(data)).reports;
            && (Parse(m, data).outcome.Parsed? ==> Parse(m, data).outcome.map_.reports == all && |all| <= 64)
            && (|all| > 64 ==> Parse(m, data).outcome == Rejected)
  {
    ParseIsReference(m, data);
  }

  /** The appearance returned is that of the usage returned: 961 for keyboards and consumer controls, 962 to 964 for
      mice, joysticks and gamepads, 960 for anything else. */
  lemma AppearanceOfResult(m: Machine, data: seq<u8>)
    requires m.step == WaitUsagePage && Parse(m, data).outcome.Parsed?
    ensures var r := Parse(m, data).outcome.map_;
            && (r.usage == Keyboard || r.usage == ConsumerControl ==> r.appearance == 0x03C1)
            && (r.usage == Mouse ==> r.appearance == 0x03C2)
            && (r.usage == Joystick ==> r.appearance == 0x03C3)
            && (r.usage == Gamepad ==> r.appearance == 0x03C4)
            && (r.usage == Generic ==> r.appearance == 0x03C0)
            && r.usage != Vendor && r.usage != Tablet
  {
    ParseIsReference(m, data);
    hide Parse, Tokenise, Split, AddAll, AllGroups;
  }

  /** A descriptor that does not begin with Usage Page, Usage and an application collection is refused. */
  lemma WrongHeaderIsRefused(m: Machine, data: seq<u8>)
    requires m.step == WaitUsagePage
    requires var items := Tokenise(data).items;
             || (|items| > 0 && items[0].tag != 0x04)
             || (|items| > 1 && items[1].tag != 0x08)
             || (|items| > 2 && (items[2].tag != 0xA0 || items[2].Value() != 1))
    ensures Parse(m, data).outcome == Rejected
  {
    ParseIsReference(m, data);
    hide Parse, Tokenise, AddAll, AllGroups;
  }

  /** A main item declares its size once for every field it counts. */
  lemma {:induction false} TimesRepeats(size: u16, count: u16)
    ensures Times(size, 0) == 0 && Times(size, 1) == size
    ensures count < 0xFFFF ==> Times(size, count + 1) == Times(size, count) + size
  {
  }

  // ---- the dereference of a map that was never allocated ----

  /** No Report ID change cuts the body, and it is not closed with whole-byte sums. */
  predicate CommitsNothing(a: Application) {
    && (forall k :: 0 <= k < |a.body| ==> !IsCut(a.body, 0, k))
    && !(a.closed && Whole(a.body, 0, |a.body|))
  }

  lemma {:induction false} NoCuts(b: seq<Item>, n: nat, page: u16, usage: u16)
    requires n <= |b|
    ensures CutsUpTo(b, n, page, usage).groups == [] <==> forall k :: 0 <= k < n ==> !IsCut(b, 0, k)
    ensures CutsUpTo(b, n, page, usage).groups == [] ==> CutsUpTo(b, n, page, usage).from == 0
  {
    if n > 0 {
      NoCuts(b, n - 1, page, usage);
      hide IsCut;
    }
  }

  predicate NothingCommitted(apps: seq<Application>) {
    forall i :: 0 <= i < |apps| ==> CommitsNothing(apps[i])
  }

  lemma {:induction false} NoGroups(apps: seq<Application>)
    ensures AllGroups(apps) == [] <==> NothingCommitted(apps)
    decreases |apps|
  {
    if apps != [] {
      NoGroupsIn(apps[0]);
      NoGroups(apps[1..]);
      hide *;
      NothingCommittedCons(apps);
      GroupsCons(apps);
    }
  }

  lemma NoGroupsIn(a: Application)
    ensures GroupsOf(a) == [] <==> CommitsNothing(a)
  {
    NoCuts(a.body, |a.body|, a.page, a.usage);
    hide IsCut, CutsUpTo;
  }

  lemma GroupsCons(apps: seq<Application>)
    requires apps != []
    ensures AllGroups(apps) == [] <==> GroupsOf(apps[0]) == [] && AllGroups(apps[1..]) == []
  {
    hide GroupsOf;
  }

  lemma NothingCommittedCons(apps: seq<Application>)
    requires apps != []
    ensures NothingCommitted(apps) <==> CommitsNothing(apps[0]) && NothingCommitted(apps[1..])
  {
    hide CommitsNothing;
    assert apps == [apps[0]] + apps[1..];
  }

  /** From between collections a call dereferences the null pointer exactly when no earlier map is left over, the
      descriptor is accepted, and none of its collections commits anything. */
  lemma NullMapExactly(m: Machine, data: seq<u8>)
    requires m.step == WaitUsagePage
    ensures Parse(m, data).outcome == NullMap
       <==> m.temp == None && !Refused(data) && NothingCommitted(Split(Tokenise(data).items).applications)
  {
    ParseIsReference(m, data);
    NoGroups(Split(Tokenise(data).items).applications);
    hide Split, Tokenise, NothingCommitted, AllGroups, Parse, Refused;
  }

  const THREE_BIT_BODY: seq<Item> :=
    [Item(RM_REPORT_SIZE, [1]), Item(RM_REPORT_COUNT, [3]), Item(RM_INPUT, [2])]
  const KEYBOARD_HEADER: seq<Item> := [Item(RM_USAGE_PAGE, [1]), Item(RM_USAGE, [6]), Item(RM_COLLECTION, [1])]
  const THREE_BIT_KEYBOARD: seq<u8> :=
    [0x05, 0x01, 0x09, 0x06, 0xA1, 0x01, 0x75, 0x01, 0x95, 0x03, 0x81, 0x02, 0xC0]

  /** A well-formed keyboard whose report is three bits long makes a fresh parser dereference the null pointer. */
  lemma ThreeBitKeyboard()
    ensures Parse(FRESH, THREE_BIT_KEYBOARD).outcome == NullMap
  {
    hide *;
    ThreeBitTokens();
    ThreeBitSplit();
    ThreeBitsNotWhole();
    NothingInOne(Application(1, 6, THREE_BIT_BODY, true));
    NullMapWhen(THREE_BIT_KEYBOARD);
  }

  lemma NothingInOne(a: Application)
    requires CommitsNothing(a)
    ensures NothingCommitted([a])
  {
  }

  lemma NullMapWhen(data: seq<u8>)
    requires Tokenise(data).complete && Split(Tokenise(data).items).ending != Malformed
    requires NothingCommitted(Split(Tokenise(data).items).applications)
    ensures Parse(FRESH, data).outcome == NullMap
  {
    NoGroups(Split(Tokenise(data).items).applications);
    ParseIsReference(FRESH, data);
    hide Tokenise, Split, NothingCommitted, Parse, AllGroups;
  }

  lemma ByteItem(tag: u8, v: u8, rest: seq<u8>)
    requires tag % 4 == 0
    ensures Tokenise([tag + 1, v] + rest) == Tokens([Item(tag, [v])] + Tokenise(rest).items, Tokenise(rest).complete)
  {
    TokeniseOne(Item(tag, [v]), rest);
    hide Tokenise;
    assert Item(tag, [v]).Bytes() == [tag + 1, v];
  }

  lemma EndItem()
    ensures Tokenise([0xC0]) == Tokens([END], true)
  {
    TokeniseOne(END, []);
    assert END.Bytes() + [] == [0xC0];
  }

  lemma BodyTokens(data: seq<u8>)
    requires data == [0x75, 0x01, 0x95, 0x03, 0x81, 0x02, 0xC0]
    ensures Tokenise(data) == Tokens(THREE_BIT_BODY + [END], true)
  {
    hide Tokenise;
    EndItem();
    ByteItem(RM_INPUT, 2, [0xC0]);
    ByteItem(RM_REPORT_COUNT, 3, [0x81, 0x02] + [0xC0]);
    ByteItem(RM_REPORT_SIZE, 1, [0x95, 0x03] + ([0x81, 0x02] + [0xC0]));
    assert data == [0x75, 0x01] + ([0x95, 0x03] + ([0x81, 0x02] + [0xC0]));
  }

  lemma HeaderTokens(rest: seq<u8>)
    ensures Tokenise([0x05, 0x01, 0x09, 0x06, 0xA1, 0x01] + rest)
         == Tokens(KEYBOARD_HEADER + Tokenise(rest).items, Tokenise(rest).complete)
  {
    hide Tokenise;
    ByteItem(RM_COLLECTION, 1, rest);
    ByteItem(RM_USAGE, 6, [0xA1, 0x01] + rest);
    ByteItem(RM_USAGE_PAGE, 1, [0x09, 0x06] + ([0xA1, 0x01] + rest));
    assert [0x05, 0x01, 0x09, 0x06, 0xA1, 0x01] + rest == [0x05, 0x01] + ([0x09, 0x06] + ([0xA1, 0x01] + rest));
  }

  lemma ThreeBitTokens()
    ensures Tokenise(THREE_BIT_KEYBOARD) == Tokens(KEYBOARD_HEADER + (THREE_BIT_BODY + [END]), true)
  {
    hide Tokenise;
    BodyTokens(THREE_BIT_KEYBOARD[6..]);
    HeaderTokens(THREE_BIT_KEYBOARD[6..]);
    assert THREE_BIT_KEYBOARD == [0x05, 0x01, 0x09, 0x06, 0xA1, 0x01] + THREE_BIT_KEYBOARD[6..];
  }

  lemma ThreeBitSplit()
    ensures Split(KEYBOARD_HEADER + (THREE_BIT_BODY + [END]))
         == Layout([Application(1, 6, THREE_BIT_BODY, true)], Between)
  {
    var items, rest := KEYBOARD_HEADER + (THREE_BIT_BODY + [END]), THREE_BIT_BODY + [END];
    assert items[3..] == rest;
    assert Balance(rest, 1) == 1 && Balance(rest, 2) == 1 && Balance(rest, 3) == 1 && Balance(rest, 4) == 0;
    assert ClosesAt(rest, 3);
    assert CloseFrom(rest, 0) == 3;
    assert rest[..3] == THREE_BIT_BODY && rest[4..] == [];
  }

  lemma ThreeBitsNotWhole()
    ensures CommitsNothing(Application(1, 6, THREE_BIT_BODY, true))
  {
    var b := THREE_BIT_BODY;
    assert LastValue(b, RM_REPORT_SIZE, 1) == 1 && LastValue(b, RM_REPORT_COUNT, 2) == 3;
    assert SizeAt(b, 2) == 1 && CountAt(b, 2) == 3;
    assert Bits(b, RM_INPUT, 0, 1) == 0;
    assert Bits(b, RM_INPUT, 0, 2) == 0;
    assert Bits(b, RM_INPUT, 0, 3) == 3;
  }

  // ---- one call after another ----

  /** From between collections a call gives what a fresh parser gives, exactly unless it is accepted,
      commits no group, and finds a map left over. */
  lemma SameAsFresh(m: Machine, data: seq<u8>)
    requires m.step == WaitUsagePage
    ensures Parse(m, data).outcome == Parse(FRESH, data).outcome
       <==> m.temp == None || Refused(data) || DescriptorGroups(data) != []
  {
    ParseIsReference(m, data);
    ParseIsReference(FRESH, data);
  }

  function AfterCalls(m: Machine, calls: seq<seq<u8>>): Machine
    decreases |calls|
  {
    if calls == [] then m else AfterCalls(Parse(m, calls[0]).machine, calls[1..])
  }

  lemma {:induction false} AfterCallsIdle(m: Machine, calls: seq<seq<u8>>)
    requires m.step == WaitUsagePage
    requires forall i :: 0 <= i < |calls| ==> !LeftInside(calls[i])
    ensures AfterCalls(m, calls).step == WaitUsagePage
    decreases |calls|
  {
    if calls != [] {
      ParseIsReference(m, calls[0]);
      AfterCallsIdle(Parse(m, calls[0]).machine, calls[1..]);
    }
  }

  /** Calls are independent: whatever earlier calls left in the variables, a descriptor that commits
      a group, or is refused, gives what a fresh parser gives, as long as no earlier one ended inside. */
  lemma CallsAreIndependent(calls: seq<seq<u8>>, data: seq<u8>)
    requires forall i :: 0 <= i < |calls| ==> !LeftInside(calls[i])
    requires Refused(data) || DescriptorGroups(data) != []
    ensures Parse(AfterCalls(FRESH, calls), data).outcome == Parse(FRESH, data).outcome
  {
    AfterCallsIdle(FRESH, calls);
    SameAsFresh(AfterCalls(FRESH, calls), data);
  }

  /** Every item the machine refuses leaves it between collections. */
  lemma {:induction false} RefusalIsIdle(m: Machine, items: seq<Item>)
    requires !Run(m, items).ok
    ensures Run(m, items).machine.step == WaitUsagePage
    decreases |items|
  {
    var r := Handle(m, items[0]);
    if r.ok {
      RefusalIsIdle(r.machine, items[1..]);
    }
  }

  /** The other way round: a call that ends inside a header costs the next caller its result,
      however well formed the next descriptor is. */
  lemma NextCallIsLost(m: Machine, data: seq<u8>)
    requires m.step == WaitUsage || m.step == WaitCollection
    requires Tokenise(data).items != [] && Tokenise(data).items[0].tag == RM_USAGE_PAGE
    ensures Parse(m, data).outcome == Rejected && Parse(m, data).machine.step == WaitUsagePage
  {
  }

  /** A call made inside a collection, with a descriptor that has no Report ID and does not close that collection:
      its headers are read as items of the old body, none of its reports is listed, and the call returns
      what was left over. */
  lemma CallInsideIsSwallowed(m: Machine, data: seq<u8>)
    requires m.step == WaitEndCollection && Tokenise(data).complete
    requires StaysInside(m.depth, Tokenise(data).items)
    ensures var r := Parse(m, data);
            && r.outcome == (match m.temp case None => NullMap case Some(l) => Parsed(Present(l)))
            && r.machine.step == WaitEndCollection && r.machine.temp == None
  {
    var items := Tokenise(data).items;
    SwallowedRun(m.(newMap := true), items, |items|);
    assert items[..|items|] == items;
    hide Tokenise, Run, StaysInside;
  }

  /** From a depth, the items never bring it to 0, and none is a Report ID. */
  predicate StaysInside(depth: u8, items: seq<Item>) {
    && (forall k :: 0 <= k <= |items| ==> Low8(depth + Balance(items, k) - 1) != 0)
    && (forall k :: 0 <= k < |items| ==> items[k].tag != RM_REPORT_ID)
  }

  lemma {:induction false} SwallowedRun(m: Machine, items: seq<Item>, n: nat)
    requires n <= |items| && m.step == WaitEndCollection && StaysInside(m.depth, items)
    ensures var r := Run(m, items[..n]);
            && r.ok && r.machine.step == WaitEndCollection && r.machine.temp == m.temp
            && r.machine.depth == Low8(m.depth + Balance(items, n) - 1)
  {
    if n == 0 {
      assert items[..0] == [];
    } else {
      hide Low8, Run, Handle;
      SwallowedRun(m, items, n - 1);
      var d := m.depth + Balance(items, n - 1) - 1;
      assert Low8(m.depth + Balance(items, n) - 1) != 0;
      assert items[n - 1].tag == RM_END_COLLECTION ==> m.depth + Balance(items, n) - 1 == d - 1;
      assert items[..n] == items[..n - 1] + [items[n - 1]];
      RunAppend(m, items[..n - 1], [items[n - 1]]);
      var t := Run(m, items[..n - 1]).machine;
      RunOne(t, items[n - 1]);
      SwallowedStep(t, items[n - 1], d);
    }
  }

  lemma SwallowedStep(m: Machine, cmd: Item, d: int)
    requires m.step == WaitEndCollection && m.depth == Low8(d) && cmd.tag != RM_REPORT_ID
    requires cmd.tag == RM_END_COLLECTION ==> Low8(d - 1) != 0
    ensures var r := Handle(m, cmd);
            var e := if cmd.tag == RM_COLLECTION then d + 1 else if cmd.tag == RM_END_COLLECTION then d - 1 else d;
            && r.ok && r.machine.step == WaitEndCollection && r.machine.temp == m.temp
            && r.machine.depth == Low8(e)
  {
    WrapStep8(d);
  }

  /** So a whole keyboard descriptor, parsed after a call that ended inside a collection and left no map, makes the
      parser dereference the null pointer. */
  lemma KeyboardSwallowed(m: Machine)
    requires m.step == WaitEndCollection && 1 <= m.depth < 0xFF && m.temp == None
    ensures Parse(m, WHOLE_KEYBOARD).outcome == NullMap
  {
    var k := KEYBOARD_ITEMS;
    KeyboardStays(m.depth);
    WholeEncoding(k);
    hide *;
    CallInsideIsSwallowed(m, Encode(k));
  }

  const OPEN_KEYBOARD: seq<u8> := [0x05, 0x01, 0x09, 0x06, 0xA1, 0x01, 0x75]

  lemma CutInside()
    ensures Parse(FRESH, OPEN_KEYBOARD).outcome == Rejected
    ensures var m := Parse(FRESH, OPEN_KEYBOARD).machine;
            m.step == WaitEndCollection && m.depth == 1 && m.temp == None
  {
    var m := FRESH.(newMap := true);
    assert Tokenise([0x75]) == Tokens([], false);
    hide Tokenise;
    HeaderTokens([0x75]);
    assert OPEN_KEYBOARD == [0x05, 0x01, 0x09, 0x06, 0xA1, 0x01] + [0x75];
    assert KEYBOARD_HEADER + [] == KEYBOARD_HEADER && KEYBOARD_HEADER[3..] == [];
    hide Run;
    RunHeader(m, KEYBOARD_HEADER, []);
    RunNone(StateAt(m, [], 0, 1, 6));
  }

  /** Two calls: a keyboard descriptor cut inside its collection, which is refused, and then a whole one, on which the
      parser dereferences the null pointer. */
  lemma KeyboardAfterCut()
    ensures Parse(FRESH, OPEN_KEYBOARD).outcome == Rejected
    ensures Parse(Parse(FRESH, OPEN_KEYBOARD).machine, WHOLE_KEYBOARD).outcome == NullMap
  {
    hide *;
    CutInside();
    KeyboardSwallowed(Parse(FRESH, OPEN_KEYBOARD).machine);
  }

  lemma WholeEncoding(items: seq<Item>)
    requires AllValid(items)
    ensures Tokenise(Encode(items)) == Tokens(items, true)
  {
    TokeniseEncode(items, []);
    assert Encode(items) + [] == Encode(items) && items + [] == items;
    hide Encode;
  }

  lemma KeyboardStays(depth: u8)
    requires 1 <= depth < 0xFF
    ensures StaysInside(depth, KEYBOARD_ITEMS) && AllValid(KEYBOARD_ITEMS)
  {
    var k := KEYBOARD_ITEMS;
    assert Balance(k, 0) == 1 && Balance(k, 1) == 1 && Balance(k, 2) == 1;
    assert Balance(k, 3) == 2 && Balance(k, 4) == 1;
    hide Balance;
  }

  const CUT_HEADER: seq<u8> := [0x05, 0x01, 0x09]
  const KEYBOARD_ITEMS: seq<Item> :=
    [Item(RM_USAGE_PAGE, [1]), Item(RM_USAGE, [6]), Item(RM_COLLECTION, [1]), Item(RM_END_COLLECTION, [])]
  const WHOLE_KEYBOARD: seq<u8> := Encode(KEYBOARD_ITEMS)
  const CUT_TAIL: seq<u8> := WHOLE_KEYBOARD + [0x05]

  lemma CutHeader()
    ensures LeftInside(CUT_HEADER)
    ensures Parse(FRESH, CUT_HEADER).machine.step == WaitUsage
  {
    var page := Item(RM_USAGE_PAGE, [0x01]);
    assert CUT_HEADER[2..] == [0x09] && CUT_HEADER[1..2] == [0x01];
    assert Tokenise([0x09]) == Tokens([], false);
    assert Tokenise(CUT_HEADER) == Tokens([page], false);
    RunOne(FRESH.(newMap := true), page);
  }

  lemma EmptyKeyboardGroups()
    ensures GroupsOf(Application(1, 6, [], true)) == [Group(1, 6, 0, 0, 0, 0)]
    ensures AddAll(EMPTY, [Group(1, 6, 0, 0, 0, 0)]) == Listing({Keyboard}, [])
  {
    var g := Group(1, 6, 0, 0, 0, 0);
    assert [g][1..] == [];
    assert AddAll(EMPTY, [g]) == Add(EMPTY, g);
  }

  lemma CutCollection()
    ensures Parse(FRESH, CUT_TAIL).machine.temp == Some(Listing({Keyboard}, []))
    ensures Parse(FRESH, CUT_TAIL).machine.step == WaitUsagePage
  {
    TailTokens();
    KeyboardRuns();
    hide Run, Tokenise, Encode;
  }

  lemma KeyboardRuns()
    ensures var r := Run(FRESH.(newMap := true), KEYBOARD_ITEMS);
            r.ok && r.machine.temp == Some(Listing({Keyboard}, [])) && r.machine.step == WaitUsagePage
  {
    var end, m := KEYBOARD_ITEMS[3], FRESH.(newMap := true);
    EmptyKeyboardGroups();
    assert AddAll(Base(m), [Group(1, 6, 0, 0, 0, 0)]) == Listing({Keyboard}, []);
    hide Run, Handle, StateAt, GroupsOf, AddAll, CutsUpTo, UpToOverflow, Overflowed;
    RunHeader(m, KEYBOARD_ITEMS, []);
    assert KEYBOARD_ITEMS[3..] == [end];
    RunOne(StateAt(m, [], 0, 1, 6), end);
    NoCutsYet([], 1, 6);
    NothingFits(m);
    CloseStep(m, [], end, 1, 6);
  }

  lemma NothingFits(m: Machine)
    requires m.newMap
    ensures Fits(m, [])
  {
  }

  lemma TailTokens()
    ensures Tokenise(CUT_TAIL) == Tokens(KEYBOARD_ITEMS, false)
  {
    TokeniseEncode(KEYBOARD_ITEMS, [0x05]);
    assert Tokenise([0x05]) == Tokens([], false);
  }

  /** Two descriptors that show both failures of independence. One cut after its usage page leaves the
      parser waiting for a usage; one cut after a complete collection leaves that collection's map, which
      an empty descriptor then returns. */
  lemma StaleStateIsObservable()
    ensures LeftInside(CUT_HEADER)
    ensures Parse(FRESH, CUT_HEADER).machine.step == WaitUsage
    ensures Parse(Parse(FRESH, CUT_TAIL).machine, []).outcome == Parsed(ReportMap(Keyboard, APPEARANCE_KEYBOARD, []))
    ensures Parse(FRESH, []).outcome == NullMap
  {
    CutHeader();
    CutCollection();
  }

  // ---- concatenation ----

  function Rank(u: Usage): nat {
    match u
    case Keyboard => 5
    case Mouse => 4
    case Joystick => 3
    case Gamepad => 2
    case ConsumerControl => 1
    case _ => 0
  }

  function Stronger(u: Usage, v: Usage): Usage {
    if Rank(u) >= Rank(v) then u else v
  }

  /** The usage of a mask is its strongest; usages of no rank show as Generic. */
  lemma DominantIsStrongest(mask: set<Usage>, v: Usage)
    ensures v in mask ==> Rank(v) <= Rank(Dominant(mask))
    ensures Dominant(mask) in mask || Dominant(mask) == Generic
    ensures Rank(Dominant(mask)) == 0 ==> Dominant(mask) == Generic
  {
  }

  lemma DominantOfUnion(a: set<Usage>, b: set<Usage>)
    ensures Dominant(a + b) == Stronger(Dominant(a), Dominant(b))
  {
  }

  /** Groups appended to a listing are appended to its reports and joined to its usages. */
  lemma {:induction false} AddAllJoins(l: Listing, gs: seq<Group>)
    ensures AddAll(l, gs) == Listing(l.mask + AddAll(EMPTY, gs).mask, l.reports + AddAll(EMPTY, gs).reports)
    decreases |gs|
  {
    if gs != [] {
      var g, more := gs[0], gs[1..];
      AddAllJoins(Add(l, g), more);
      AddAllJoins(Add(EMPTY, g), more);
      JoinStep(l, g, AddAll(EMPTY, more));
    }
  }

  lemma JoinStep(l: Listing, g: Group, t: Listing)
    ensures Add(l, g).mask + t.mask == l.mask + (Add(EMPTY, g).mask + t.mask)
    ensures Add(l, g).reports + t.reports == l.reports + (Add(EMPTY, g).reports + t.reports)
  {
    assert Add(EMPTY, g).reports == Expand(g) && Add(EMPTY, g).mask == MaskOf(g);
  }

  /** Running a descriptor that closes its collections, then another, commits both lists of groups. */
  lemma RunConcat(a: seq<u8>, b: seq<u8>)
    requires Tokenise(a).complete && Split(Tokenise(a).items).ending == Between && DescriptorGroups(a) != []
    requires |AddAll(EMPTY, DescriptorGroups(a)).reports| <= MAX_REPORTS
    ensures Tokenise(a + b).complete == Tokenise(b).complete
    ensures var m, gb := FRESH.(newMap := true), DescriptorGroups(b);
            var total := AddAll(AddAll(EMPTY, DescriptorGroups(a)), gb);
            var r := Run(m, Tokenise(a + b).items);
            if |total.reports| <= MAX_REPORTS
            then (r.ok <==> Split(Tokenise(b).items).ending != Malformed) && r.machine.temp == Some(total)
            else !r.ok
  {
    var m := FRESH.(newMap := true);
    TokeniseConcat(a, b);
    ParseRun(FRESH, a);
    var x := Run(m, Tokenise(a).items).machine;
    assert Base(x) == AddAll(EMPTY, DescriptorGroups(a));
    RunIsSplit(x, Tokenise(b).items);
    RunAppend(m, Tokenise(a).items, Tokenise(b).items);
    assert Base(x).reports + [] == Base(x).reports;
  }

  /** Two descriptors that parse, the first closing all its collections: their concatenation gives the two
      report lists one after the other and the stronger of the two usages, unless that is over 64 reports. */
  lemma ConcatenationAppends(a: seq<u8>, b: seq<u8>)
    requires Parse(FRESH, a).outcome.Parsed? && !LeftInside(a)
    requires Parse(FRESH, b).outcome.Parsed?
    ensures var ma, mb := Parse(FRESH, a).outcome.map_, Parse(FRESH, b).outcome.map_;
            var u := Stronger(ma.usage, mb.usage);
            Parse(FRESH, a + b).outcome == (
              if |ma.reports| + |mb.reports| > MAX_REPORTS then Rejected
              else Parsed(ReportMap(u, AppearanceOf(u), ma.reports + mb.reports)))
  {
    var la, lb := AddAll(EMPTY, DescriptorGroups(a)), AddAll(EMPTY, DescriptorGroups(b));
    ParseIsReference(FRESH, a);
    ParseIsReference(FRESH, b);
    RunConcat(a, b);
    AddAllJoins(la, DescriptorGroups(b));
    DominantOfUnion(la.mask, lb.mask);
    hide Run, Split, AllGroups, Tokenise, Dominant, AddAll;
  }
}
