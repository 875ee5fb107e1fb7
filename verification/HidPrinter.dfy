/** A canonical printer for report descriptors, and the round trip through the parser: what is printed
    from a list of application collections parses to the reports that list describes. */
module HidPrinter {
  import opened HidTypes
  import opened ShortItems
  import opened HidReference
  import opened HidMachine
  import opened HidRefinement

  /** One report: its usage, its ID, and its lengths in bytes. */
  datatype AnyReport = Report(page: u16, usage: u16, id: u8, input: nat, output: nat, feature: nat)
  {
    function Described(): Group {
      Group(page, usage, id, 8 * input, 8 * output, 8 * feature)
    }
  }

  /** The bits of each kind fit in sixteen bits. ID 0 stands for a report without one. */
  type Report = r: AnyReport
    | r.input < 0x2000 && r.output < 0x2000 && r.feature < 0x2000
    witness Report(0, 0, 0, 0, 0, 0)

  /** The reports of one application collection; the first gives the collection its usage. A report without an ID is the
      only one of its collection. */
  datatype Collection = Collection(first: Report, later: seq<Report>)

  /** With more than one report, all have IDs, and no two neighbours share one. */
  predicate Chain(r: Report, later: seq<Report>)
    decreases |later|
  {
    later != [] ==> r.id != 0 && later[0].id != 0 && r.id != later[0].id && Chain(later[0], later[1..])
  }

  // ---- printing ----

  /** An item with as few data bytes as its value needs. */
  function Short(tag: u8, v: u16): Item {
    Item(tag, if v == 0 then [] else if v < 0x100 then [v] else [v % 0x100, v / 0x100])
  }

  function Header(r: Report): seq<Item> {
    [Short(RM_USAGE_PAGE, r.page), Short(RM_USAGE, r.usage), Short(RM_COLLECTION, 1)]
  }

  /** The main items of one report, after its ID: eight-bit fields, as many as the report has bytes. */
  function Fields(r: Report): seq<Item> {
    [Short(RM_REPORT_SIZE, 8),
     Short(RM_REPORT_COUNT, r.input), Short(RM_INPUT, 2),
     Short(RM_REPORT_COUNT, r.output), Short(RM_OUTPUT, 2),
     Short(RM_REPORT_COUNT, r.feature), Short(RM_FEATURE, 2)]
  }

  function Later(r: Report): seq<Item> {
    [Short(RM_USAGE_PAGE, r.page), Short(RM_USAGE, r.usage), Short(RM_REPORT_ID, r.id)] + Fields(r)
  }

  function PrintLater(r: Report, later: seq<Report>): seq<Item>
    requires Chain(r, later)
    decreases |later|
  {
    if later == [] then [] else Later(later[0]) + PrintLater(later[0], later[1..])
  }

  function First(r: Report): seq<Item> {
    (if r.id == 0 then [] else [Short(RM_REPORT_ID, r.id)]) + Fields(r)
  }

  function PrintOne(c: Collection): seq<Item>
    requires Chain(c.first, c.later)
  {
    Header(c.first) + (First(c.first) + (PrintLater(c.first, c.later) + [END]))
  }

  predicate ValidAll(cs: seq<Collection>) {
    forall i :: 0 <= i < |cs| ==> Chain(cs[i].first, cs[i].later)
  }

  function Print(cs: seq<Collection>): seq<Item>
    requires ValidAll(cs)
  {
    if cs == [] then [] else PrintOne(cs[0]) + Print(cs[1..])
  }

  // ---- what is described ----

  function Describe(r: Report, later: seq<Report>): seq<Group>
    decreases |later|
  {
    [r.Described()] + if later == [] then [] else Describe(later[0], later[1..])
  }

  function DescribeAll(cs: seq<Collection>): seq<Group> {
    if cs == [] then [] else Describe(cs[0].first, cs[0].later) + DescribeAll(cs[1..])
  }

  // ---- the printed items are items ----

  lemma ValidConcat(a: seq<Item>, b: seq<Item>)
    requires AllValid(a) && AllValid(b)
    ensures AllValid(a + b)
  {
  }

  lemma ShortValid(tag: u8, v: u16)
    requires tag % 4 == 0
    ensures Short(tag, v).Valid()
  {
  }

  lemma FieldsValid(r: Report)
    ensures AllValid(Fields(r)) && AllValid(First(r)) && AllValid(Later(r)) && AllValid(Header(r))
  {
    ShortValid(RM_REPORT_SIZE, 8);
    ShortValid(RM_REPORT_COUNT, r.input);
    ShortValid(RM_REPORT_COUNT, r.output);
    ShortValid(RM_REPORT_COUNT, r.feature);
    ShortValid(RM_INPUT, 2);
    ShortValid(RM_OUTPUT, 2);
    ShortValid(RM_FEATURE, 2);
    ShortValid(RM_REPORT_ID, r.id);
    ShortValid(RM_USAGE_PAGE, r.page);
    ShortValid(RM_USAGE, r.usage);
    ShortValid(RM_COLLECTION, 1);
    hide Short;
  }

  lemma {:induction false} LaterValid(r: Report, later: seq<Report>)
    requires Chain(r, later)
    ensures AllValid(PrintLater(r, later))
    decreases |later|
  {
    hide Later, AllValid;
    if later == [] {
      NoneValid();
    } else {
      FieldsValid(later[0]);
      LaterValid(later[0], later[1..]);
      ValidConcat(Later(later[0]), PrintLater(later[0], later[1..]));
    }
  }

  lemma NoneValid()
    ensures AllValid([]) && AllValid([END])
  {
  }

  lemma OneValid(c: Collection)
    requires Chain(c.first, c.later)
    ensures AllValid(PrintOne(c))
  {
    hide Header, First, PrintLater, AllValid;
    var rest := PrintLater(c.first, c.later);
    NoneValid();
    FieldsValid(c.first);
    LaterValid(c.first, c.later);
    ValidConcat(rest, [END]);
    ValidConcat(First(c.first), rest + [END]);
    ValidConcat(Header(c.first), First(c.first) + (rest + [END]));
  }

  lemma {:induction false} PrintValid(cs: seq<Collection>)
    requires ValidAll(cs)
    ensures AllValid(Print(cs))
    decreases |cs|
  {
    if cs != [] {
      OneValid(cs[0]);
      PrintValid(cs[1..]);
      ValidConcat(PrintOne(cs[0]), Print(cs[1..]));
    }
  }

  // ---- running the printed items ----

  lemma ShortValue(tag: u8, v: u16)
    ensures Short(tag, v).Value() == v
  {
  }

  /** Inside a collection, with everything counted so far belonging to report r. */
  predicate Holding(m: Machine, r: Report) {
    && m.step == WaitEndCollection && m.depth == 1
    && m.params.usagePage == r.page && m.params.usage == r.usage && m.params.reportId == r.id
    && m.params.inputLen == 8 * r.input && m.params.outputLen == 8 * r.output && m.params.featureLen == 8 * r.feature
  }

  /** As Holding, but before the report's main items. */
  predicate Starting(m: Machine, r: Report) {
    && m.step == WaitEndCollection && m.depth == 1
    && m.params.usagePage == r.page && m.params.usage == r.usage && m.params.reportId == r.id
    && m.params.inputLen == 0 && m.params.outputLen == 0 && m.params.featureLen == 0
  }

  lemma RunFields(m: Machine, r: Report)
    requires Starting(m, r)
    ensures var q := Run(m, Fields(r));
            q.ok && Holding(q.machine, r) && q.machine.newMap == m.newMap && q.machine.temp == m.temp
  {
    ShortValue(RM_REPORT_SIZE, 8);
    var m1 := m.(size := 8);
    var m2 := RunCounted(m1, RM_INPUT, r.input);
    var m3 := RunCounted(m2, RM_OUTPUT, r.output);
    var m4 := RunCounted(m3, RM_FEATURE, r.feature);
    var f := Fields(r);
    hide Run, Handle;
    assert f[1..] == f[1..3] + f[3..] && f[3..] == f[3..5] + f[5..];
    assert f[1..3] == [Short(RM_REPORT_COUNT, r.input), Short(RM_INPUT, 2)];
    assert f[3..5] == [Short(RM_REPORT_COUNT, r.output), Short(RM_OUTPUT, 2)];
    assert f[5..] == [Short(RM_REPORT_COUNT, r.feature), Short(RM_FEATURE, 2)];
    SetSize(m);
    RunCons(m, f);
    RunAppend(m1, f[1..3], f[3..]);
    RunAppend(m2, f[3..5], f[5..]);
  }

  lemma SetSize(m: Machine)
    requires m.step == WaitEndCollection
    ensures Handle(m, Short(RM_REPORT_SIZE, 8)) == Reply(m.(size := 8), true)
  {
  }

  /** A count followed by a main item of eight-bit fields. */
  lemma RunCounted(m: Machine, tag: u8, n: nat) returns (e: Machine)
    requires m.step == WaitEndCollection && m.size == 8 && n < 0x2000
    requires tag == RM_INPUT || tag == RM_OUTPUT || tag == RM_FEATURE
    requires tag == RM_INPUT ==> m.params.inputLen == 0
    requires tag == RM_OUTPUT ==> m.params.outputLen == 0
    requires tag == RM_FEATURE ==> m.params.featureLen == 0
    ensures Run(m, [Short(RM_REPORT_COUNT, n), Short(tag, 2)]) == Reply(e, true)
    ensures e == m.(count := n, params :=
                   if tag == RM_INPUT then m.params.(inputLen := 8 * n)
                   else if tag == RM_OUTPUT then m.params.(outputLen := 8 * n)
                   else m.params.(featureLen := 8 * n))
  {
    ShortValue(RM_REPORT_COUNT, n);
    var items := [Short(RM_REPORT_COUNT, n), Short(tag, 2)];
    var c := m.(count := n);
    assert Handle(m, items[0]) == Reply(c, true);
    e := Handle(c, items[1]).machine;
    RunOne(c, items[1]);
    assert items[1..] == [items[1]];
  }

  lemma RunUsages(m: Machine, page: u16, usage: u16) returns (e: Machine)
    requires m.step == WaitEndCollection
    ensures Run(m, [Short(RM_USAGE_PAGE, page), Short(RM_USAGE, usage)]) == Reply(e, true)
    ensures e == m.(params := m.params.(innerUsagePage := page, innerUsage := usage))
  {
    var items := [Short(RM_USAGE_PAGE, page), Short(RM_USAGE, usage)];
    ShortValue(RM_USAGE_PAGE, page);
    ShortValue(RM_USAGE, usage);
    var c := m.(params := m.params.(innerUsagePage := page));
    assert Handle(m, items[0]) == Reply(c, true);
    e := Handle(c, items[1]).machine;
    RunOne(c, items[1]);
    assert items[1..] == [items[1]];
  }

  lemma AddOne(l: Listing, g: Group)
    ensures AddAll(l, [g]) == Add(l, g)
  {
    AddAllOne(l, [], g);
    assert [] + [g] == [g];
  }

  /** The next report of a collection: the one held is committed and the next one starts. */
  lemma RunNext(m: Machine, r: Report, s: Report) returns (e: Machine)
    requires r.id != 0 && s.id != 0 && r.id != s.id && Holding(m, r)
    ensures var q := Run(m, [Short(RM_USAGE_PAGE, s.page), Short(RM_USAGE, s.usage), Short(RM_REPORT_ID, s.id)]);
            if Fits(m, [r.Described()]) then
              && q == Reply(e, true) && Starting(e, s) && e.newMap == false
              && e.temp == Some(Add(Base(m), r.Described()))
            else !q.ok
  {
    hide Run, Handle;
    var m2 := RunUsages(m, s.page, s.usage);
    var id := Short(RM_REPORT_ID, s.id);
    RunAppend(m, [Short(RM_USAGE_PAGE, s.page), Short(RM_USAGE, s.usage)], [id]);
    RunOne(m2, id);
    e := Handle(m2, id).machine;
    AddOne(Base(m), r.Described());
    assert ParamsGroup(m2.params) == r.Described() && Base(m2) == Base(m);
    IdChange(m2, s.id);
    assert [Short(RM_USAGE_PAGE, s.page), Short(RM_USAGE, s.usage)] + [id]
        == [Short(RM_USAGE_PAGE, s.page), Short(RM_USAGE, s.usage), id];
  }

  lemma IdChange(m: Machine, id: u8)
    requires m.step == WaitEndCollection && m.params.reportId != 0 && m.params.reportId != id && WholeBytes(m.params)
    ensures var q := Handle(m, Short(RM_REPORT_ID, id));
            var l := Add(Base(m), ParamsGroup(m.params));
            var (page, usage) := (m.params.innerUsagePage, m.params.innerUsage);
            if |l.reports| <= MAX_REPORTS then
              q == Reply(m.(temp := Some(l), newMap := false,
                            params := Params(page, usage, page, usage, id, 0, 0, 0)), true)
            else !q.ok
  {
    ShortValue(RM_REPORT_ID, id);
  }

  lemma RunLater(m: Machine, r: Report, s: Report) returns (e: Machine)
    requires r.id != 0 && s.id != 0 && r.id != s.id && Holding(m, r)
    ensures var q := Run(m, Later(s));
            if Fits(m, [r.Described()])
            then && q == Reply(e, true) && Holding(e, s)
                 && e.newMap == false && e.temp == Some(Add(Base(m), r.Described()))
            else !q.ok
  {
    hide Run, Handle;
    var m1 := RunNext(m, r, s);
    var ids := [Short(RM_USAGE_PAGE, s.page), Short(RM_USAGE, s.usage), Short(RM_REPORT_ID, s.id)];
    RunAppend(m, ids, Fields(s));
    if Fits(m, [r.Described()]) {
      RunFields(m1, s);
      e := Run(m1, Fields(s)).machine;
    } else {
      e := m;
    }
  }

  function LastOf(r: Report, later: seq<Report>): Report
    decreases |later|
  {
    if later == [] then r else LastOf(later[0], later[1..])
  }

  /** The reports of a collection that are committed before its end. */
  function Before(r: Report, later: seq<Report>): seq<Group>
    decreases |later|
  {
    if later == [] then [] else [r.Described()] + Before(later[0], later[1..])
  }

  lemma {:induction false} DescribeIsBefore(r: Report, later: seq<Report>)
    ensures Describe(r, later) == Before(r, later) + [LastOf(r, later).Described()]
    decreases |later|
  {
    if later != [] {
      DescribeIsBefore(later[0], later[1..]);
    }
  }

  /** e holds the last report of a collection and has committed the ones before it. */
  predicate HeldAfter(m: Machine, e: Machine, r: Report, later: seq<Report>) {
    && Holding(e, LastOf(r, later))
    && e.newMap == Committed(m, Before(r, later)).newMap
    && e.temp == Committed(m, Before(r, later)).temp
  }

  lemma OverflowFirst(m: Machine, g: Group, gs: seq<Group>)
    requires Fits(m, [g] + gs)
    ensures Fits(m, [g])
  {
    AddAllAppend(Base(m), [g], gs);
    AddAllGrows(AddAll(Base(m), [g]), gs);
  }

  /** The later reports of a collection, one after the other; the call goes on exactly while they fit. */
  lemma {:induction false} RunReports(m: Machine, r: Report, later: seq<Report>) returns (e: Machine)
    requires Chain(r, later) && Holding(m, r) && Fits(m, [])
    ensures var q := Run(m, PrintLater(r, later));
            if Fits(m, Before(r, later)) then q == Reply(e, true) && HeldAfter(m, e, r, later) else !q.ok
    decreases |later|
  {
    hide Run, Handle, Holding, AddAll;
    if later == [] {
      e := m;
      RunNone(m);
    } else {
      var s, more := later[0], later[1..];
      var g, gs := r.Described(), Before(s, more);
      RunAppend(m, Later(s), PrintLater(s, more));
      var d := RunLater(m, r, s);
      CommittedTwice(m, [g], gs);
      AddOne(Base(m), g);
      if Fits(m, [g]) {
        SameStock(d, Committed(m, [g]), gs);
        SameStock(d, Committed(m, [g]), []);
        CommittedTwice(m, [g], []);
        assert [g] + [] == [g];
        e := RunReports(d, s, more);
      } else {
        e := m;
        if Fits(m, [g] + gs) {
          OverflowFirst(m, g, gs);
        }
      }
    }
  }

  // ---- whole collections ----

  lemma HeaderHandled(m: Machine, r: Report) returns (m1: Machine, m2: Machine, m3: Machine)
    requires m.step == WaitUsagePage
    ensures Handle(m, Header(r)[0]) == Reply(m1, true)
    ensures Handle(m1, Header(r)[1]) == Reply(m2, true)
    ensures Handle(m2, Header(r)[2]) == Reply(m3, true)
    ensures m3.step == WaitEndCollection && m3.depth == 1 && m3.newMap == m.newMap && m3.temp == m.temp
    ensures m3.params == ZERO_PARAMS.(usagePage := r.page, usage := r.usage)
  {
    ShortValue(RM_USAGE_PAGE, r.page);
    ShortValue(RM_USAGE, r.usage);
    ShortValue(RM_COLLECTION, 1);
    m1 := Handle(m, Header(r)[0]).machine;
    m2 := Handle(m1, Header(r)[1]).machine;
    m3 := Handle(m2, Header(r)[2]).machine;
  }

  lemma FirstId(m: Machine, r: Report)
    requires m.step == WaitEndCollection && m.depth == 1
    requires m.params == ZERO_PARAMS.(usagePage := r.page, usage := r.usage)
    ensures var q := Handle(m, Short(RM_REPORT_ID, r.id));
            q.ok && Starting(q.machine, r) && q.machine.newMap == m.newMap && q.machine.temp == m.temp
  {
    ShortValue(RM_REPORT_ID, r.id);
  }

  /** The header, the first ID and its fields. */
  lemma RunOpening(m: Machine, r: Report) returns (e: Machine)
    requires m.step == WaitUsagePage
    ensures Run(m, Header(r) + First(r)) == Reply(e, true)
    ensures Holding(e, r) && e.newMap == m.newMap && e.temp == m.temp
  {
    hide Run, Handle, Holding, Starting;
    var m1, m2, m3 := HeaderHandled(m, r);
    var items := Header(r) + First(r);
    RunCons(m, items);
    RunCons(m1, items[1..]);
    RunCons(m2, items[2..]);
    assert items[1..][1..] == items[2..] && items[2..][1..] == items[3..];
    assert items[3..] == First(r);
    e := RunFirst(m3, r);
  }

  /** The first report of a collection, with or without an ID. */
  lemma RunFirst(m: Machine, r: Report) returns (e: Machine)
    requires m.step == WaitEndCollection && m.depth == 1
    requires m.params == ZERO_PARAMS.(usagePage := r.page, usage := r.usage)
    ensures Run(m, First(r)) == Reply(e, true)
    ensures Holding(e, r) && e.newMap == m.newMap && e.temp == m.temp
  {
    hide Run, Handle, Holding, Fields;
    var s := m;
    if r.id == 0 {
      assert [] + Fields(r) == Fields(r);
    } else {
      FirstId(m, r);
      RunCons(m, First(r));
      assert First(r)[1..] == Fields(r);
      s := Handle(m, Short(RM_REPORT_ID, r.id)).machine;
    }
    RunFields(s, r);
    e := Run(s, Fields(r)).machine;
  }

  lemma RunEnd(m: Machine, r: Report)
    requires Holding(m, r)
    ensures var q := Handle(m, END);
            if Fits(m, [r.Described()])
            then q.ok && IdleWith(q.machine, Committed(m, [r.Described()]))
            else !q.ok
  {
    AddOne(Base(m), r.Described());
    assert ParamsGroup(m.params) == r.Described();
    assert WholeBytes(m.params);
  }

  /** A printed collection, run from between collections, commits exactly the groups it describes. */
  lemma RunCollection(m: Machine, c: Collection) returns (e: Machine)
    requires m.step == WaitUsagePage && Chain(c.first, c.later) && Fits(m, [])
    ensures var q, gs := Run(m, PrintOne(c)), Describe(c.first, c.later);
            if Fits(m, gs) then q == Reply(e, true) && IdleWith(e, Committed(m, gs)) else !q.ok
  {
    hide Run, Handle, Holding, AddAll, Describe, PrintLater;
    var r, later := c.first, c.later;
    var last, before := LastOf(r, later).Described(), Before(r, later);
    DescribeIsBefore(r, later);
    var m1 := RunOpening(m, r);
    RunAppend(m, Header(r) + First(r), PrintLater(r, later) + [END]);
    assert PrintOne(c) == (Header(r) + First(r)) + (PrintLater(r, later) + [END]);
    RunAppend(m1, PrintLater(r, later), [END]);
    SameStock(m1, m, []);
    SameStock(m1, m, before);
    var m2 := RunReports(m1, r, later);
    CommittedTwice(m, before, [last]);
    if Fits(m, before) {
      RunOne(m2, END);
      RunEnd(m2, LastOf(r, later));
      SameStock(m2, Committed(m, before), [last]);
      e := Handle(m2, END).machine;
    } else {
      e := m;
      if Fits(m, before + [last]) {
        FitsPrefix(m, before, [last]);
      }
    }
  }

  lemma FitsPrefix(m: Machine, a: seq<Group>, b: seq<Group>)
    requires Fits(m, a + b)
    ensures Fits(m, a)
  {
    AddAllAppend(Base(m), a, b);
    AddAllGrows(AddAll(Base(m), a), b);
  }

  lemma {:induction false} RunPrinted(m: Machine, cs: seq<Collection>) returns (e: Machine)
    requires m.step == WaitUsagePage && ValidAll(cs) && Fits(m, [])
    ensures var q, gs := Run(m, Print(cs)), DescribeAll(cs);
            if Fits(m, gs) then q == Reply(e, true) && IdleWith(e, Committed(m, gs)) else !q.ok
    decreases |cs|
  {
    hide Run, AddAll, PrintOne, Describe;
    if cs == [] {
      e := m;
      RunNone(m);
    } else {
      var c, more := cs[0], cs[1..];
      var g, gs := Describe(c.first, c.later), DescribeAll(more);
      RunAppend(m, PrintOne(c), Print(more));
      var d := RunCollection(m, c);
      CommittedTwice(m, g, gs);
      CommittedTwice(m, g, []);
      assert g + [] == g;
      if Fits(m, g) {
        SameStock(d, Committed(m, g), gs);
        SameStock(d, Committed(m, g), []);
        e := RunPrinted(d, more);
      } else {
        e := m;
        if Fits(m, g + gs) {
          FitsPrefix(m, g, gs);
        }
      }
    }
  }

  lemma {:induction false} SomethingDescribed(cs: seq<Collection>)
    requires cs != []
    ensures DescribeAll(cs) != []
  {
    assert DescribeAll(cs)[0] == cs[0].first.Described();
  }

  /** The round trip: the bytes printed from any nonempty list of collections parse to exactly the reports
      the list describes, boot-protocol twins included, or are refused when there are more than 64. */
  lemma RoundTrip(m: Machine, cs: seq<Collection>)
    requires m.step == WaitUsagePage && cs != [] && ValidAll(cs)
    ensures AllValid(Print(cs))
    ensures var l := AddAll(EMPTY, DescribeAll(cs));
            Parse(m, Encode(Print(cs))).outcome
            == if |l.reports| <= MAX_REPORTS then Parsed(Present(l)) else Rejected
    ensures Parse(m, Encode(Print(cs))).outcome.Parsed? ==> Parse(m, Encode(Print(cs))).machine.step == WaitUsagePage
  {
    PrintValid(cs);
    SomethingDescribed(cs);
    var data := Encode(Print(cs));
    TokeniseEncode(Print(cs), []);
    assert data + [] == data && Print(cs) + [] == Print(cs);
    var e := RunPrinted(m.(newMap := true), cs);
  }

  /** One kind of a described report: nothing when it has no bytes, and perhaps a boot-protocol twin. */
  function Listed(id: u8, reportType: u8, u: Usage, len: u16, twin: seq<u16>): seq<ReportItem> {
    if len == 0 then []
    else [ReportItem(0, id, reportType, MODE_REPORT, u, len)]
         + if twin == [] then [] else [ReportItem(0, id, reportType, MODE_BOOT, u, twin[0])]
  }

  /** What each described report contributes, spelled out: keyboards and mice with their boot-protocol twins. */
  lemma DescribedItems(r: Report)
    requires r.page == 0x01
    ensures r.usage == 0x06 ==> (
              Expand(r.Described()) == Listed(r.id, TYPE_INPUT, Keyboard, r.input, [8])
                                       + Listed(r.id, TYPE_OUTPUT, Keyboard, r.output, [1]))
    ensures r.usage == 0x02 ==> Expand(r.Described()) == Listed(r.id, TYPE_INPUT, Mouse, r.input, [3])
    ensures r.usage == 0x06 ==> MaskOf(r.Described()) == {Keyboard}
    ensures r.usage == 0x02 ==> MaskOf(r.Described()) == {Mouse}
  {
  }

  /** Every other usage: one item a kind under its own class. */
  lemma DescribedOthers(r: Report, u: Usage)
    requires || (r.page == 0x01 && r.usage == 0x04 && u == Joystick)
             || (r.page == 0x01 && r.usage == 0x05 && u == Gamepad)
             || (r.page == 0x01 && r.usage !in {0x02, 0x04, 0x05, 0x06} && u == Generic)
             || (r.page == 0x0C && r.usage == 0x01 && u == ConsumerControl)
             || (r.page >= 0xFF && u == Vendor)
             || (0x01 != r.page < 0xFF && (r.page == 0x0C ==> r.usage != 0x01) && u == Generic)
    ensures Expand(r.Described()) == Listed(r.id, TYPE_INPUT, u, r.input, [])
                                     + Listed(r.id, TYPE_OUTPUT, u, r.output, [])
                                     + Listed(r.id, TYPE_FEATURE, u, r.feature, [])
    ensures MaskOf(r.Described()) == if u == Generic then {} else {u}
  {
  }
}
