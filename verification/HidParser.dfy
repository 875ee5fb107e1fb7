/** The parser as the C file writes it: file-static variables updated in place, a heap map holding a
    64-slot report buffer, and a loop over the bytes (esp_hid/src/esp_hid_common.c:16-401). Each method is
    proved to take exactly the transition of HidMachine. */
module HidParser {
  import opened HidTypes
  import opened ShortItems
  import opened HidReference
  import opened HidMachine

  // ---- the usage mask ----

  function Flag(u: Usage): bv8 {
    match u
    case Generic => 0
    case Keyboard => 1
    case Mouse => 2
    case Joystick => 4
    case Gamepad => 8
    case Tablet => 16
    case ConsumerControl => 32
    case Vendor => 64
  }

  const ALL_USAGES: set<Usage> := {Generic, Keyboard, Mouse, Joystick, Gamepad, Tablet, ConsumerControl, Vendor}

  /** The usages whose bits are set. */
  function UsagesIn(mask: bv8): set<Usage> {
    set u | u in ALL_USAGES && mask & Flag(u) != 0
  }

  lemma OrBit(mask: bv8, f: bv8, g: bv8)
    ensures (mask | f) & g != 0 <==> mask & g != 0 || f & g != 0
  {
  }

  lemma FlagsDiffer(u: Usage, v: Usage)
    ensures Flag(u) & Flag(v) != 0 <==> u == v && u != Generic
  {
  }

  lemma InUsages(mask: bv8, v: Usage)
    ensures v in UsagesIn(mask) <==> mask & Flag(v) != 0
  {
    assert v in ALL_USAGES;
  }

  lemma OrOneUsage(mask: bv8, u: Usage, v: Usage)
    ensures v in UsagesIn(mask | Flag(u)) <==> v in UsagesIn(mask) || (u != Generic && v == u)
  {
    InUsages(mask, v);
    InUsages(mask | Flag(u), v);
    OrBit(mask, Flag(u), Flag(v));
    FlagsDiffer(u, v);
  }

  /** Or-ing in a flag adds exactly that usage. */
  lemma OrAddsUsage(mask: bv8, u: Usage)
    ensures UsagesIn(mask | Flag(u)) == UsagesIn(mask) + if u == Generic then {} else {u}
  {
    forall v: Usage
      ensures v in UsagesIn(mask | Flag(u)) <==> v in UsagesIn(mask) || (u != Generic && v == u)
    {
      OrOneUsage(mask, u, v);
    }
  }

  /** Appending in two pieces: nothing is lost by capping after the first. */
  lemma CapStep(s: seq<ReportItem>, a: seq<ReportItem>, b: seq<ReportItem>, mask: set<Usage>)
    ensures (s + a) + b == s + (a + b)
    ensures |s + a| > MAX_REPORTS ==> Capped(Listing(mask, s + a)) == Capped(Listing(mask, s + (a + b)))
  {
    assert (s + a) + b == s + (a + b);
    if |s + a| > MAX_REPORTS {
      assert (s + a)[..MAX_REPORTS] == (s + (a + b))[..MAX_REPORTS];
    }
  }

  /** temp_hid_report_map_t */
  class TempMap {
    var usageMask: bv8
    var reportsLen: nat
    const reports: array<ReportItem>

    ghost predicate Valid()
      reads this
    {
      reports.Length == MAX_REPORTS && reportsLen <= MAX_REPORTS
    }

    ghost function Contents(): Listing
      reads this, reports
      requires Valid()
    {
      Listing(UsagesIn(usageMask), reports[..reportsLen])
    }

    constructor ()
      ensures Valid() && Contents() == EMPTY && fresh(reports)
    {
      usageMask, reportsLen := 0, 0;
      reports := new ReportItem[MAX_REPORTS](_ => ReportItem(0, 0, 0, 0, Generic, 0));
    }

    method Clear()
      requires Valid()
      modifies this
      ensures Valid() && Contents() == EMPTY
    {
      usageMask, reportsLen := 0, 0;
    }

    method SetUsage(u: Usage)
      requires Valid()
      modifies this
      ensures Valid() && reportsLen == old(reportsLen)
      ensures Contents() == old(Contents()).(mask := old(Contents()).mask + if u == Generic then {} else {u})
    {
      OrAddsUsage(usageMask, u);
      usageMask := usageMask | Flag(u);
    }

    /** Append one report, or refuse and change nothing when the buffer is full. */
    method AddReport(item: ReportItem) returns (res: int)
      requires Valid()
      modifies this, reports
      ensures Valid()
      ensures res == if |old(Contents()).reports| >= MAX_REPORTS then -1 else 0
      ensures Contents() == if res == 0
                            then old(Contents()).(reports := old(Contents()).reports + [item])
                            else old(Contents())
    {
      if reportsLen >= MAX_REPORTS {
        return -1;
      }
      reports[reportsLen] := item;
      reportsLen := reportsLen + 1;
      assert reports[..reportsLen] == old(reports[..reportsLen]) + [item];
      return 0;
    }

    /** The first flag set, in the fixed order keyboard, mouse, joystick, gamepad, consumer control. */
    method DominantUsage() returns (u: Usage)
      requires Valid()
      ensures u == Dominant(Contents().mask)
    {
      InUsages(usageMask, Keyboard);
      InUsages(usageMask, Mouse);
      InUsages(usageMask, Joystick);
      InUsages(usageMask, Gamepad);
      InUsages(usageMask, ConsumerControl);
      if usageMask & Flag(Keyboard) != 0 {
        return Keyboard;
      } else if usageMask & Flag(Mouse) != 0 {
        return Mouse;
      } else if usageMask & Flag(Joystick) != 0 {
        return Joystick;
      } else if usageMask & Flag(Gamepad) != 0 {
        return Gamepad;
      } else if usageMask & Flag(ConsumerControl) != 0 {
        return ConsumerControl;
      }
      return Generic;
    }

    /** Append a report of one kind, if any bits were declared, and its boot twin. */
    method AddKind(g: Group, reportType: u8, bits: u16, twin: Option<u16>) returns (res: int)
      requires Valid()
      modifies this, reports
      ensures Valid()
      ensures res == if |old(Contents()).reports + Items(g, reportType, bits, twin)| > MAX_REPORTS then -1 else 0
      ensures var l := old(Contents());
              Contents() == Capped(l.(reports := l.reports + Items(g, reportType, bits, twin)))
    {
      ghost var before := Contents();
      if bits > 0 {
        res := AddReport(One(g, reportType, MODE_REPORT, bits / 8));
        if res != 0 {
          return -1;
        }
        if twin.Some? {
          res := AddReport(One(g, reportType, MODE_BOOT, twin.value));
          if res != 0 {
            return -1;
          }
        }
      }
      return 0;
    }
  }

  class Parser {
    var step: Step
    var depth: u8
    var params: Params
    var size: u16
    var count: u16
    var newMap: bool
    var temp: TempMap?

    ghost predicate Valid()
      reads this, temp
    {
      temp != null ==> temp.Valid()
    }

    ghost function Repr(): set<object>
      reads this
    {
      {this} + if temp == null then {} else {temp, temp.reports}
    }

    ghost function State(): Machine
      reads this, temp, if temp == null then {} else {temp.reports}
      requires Valid()
    {
      Machine(step, depth, params, size, count, newMap, if temp == null then None else Some(temp.Contents()))
    }

    constructor ()
      ensures Valid() && State() == FRESH && fresh(Repr())
    {
      step, depth, params, size, count := WaitUsagePage, 0, ZERO_PARAMS, 0, 0;
      newMap, temp := false, null;
    }

    /** Append the reports of the current parameters to the map, starting it afresh when `newMap` is set. */
    method HandleReport() returns (res: int)
      requires Valid()
      modifies Repr()
      ensures Valid() && fresh(Repr() - old(Repr()))
      ensures var r := Commit(old(State()));
              && (res == 0 <==> r.ok)
              && State() == r.machine.(newMap := newMap, step := step)
      ensures newMap == old(newMap) && step == old(step)
    {
      ghost var was := State();
      ghost var base := Base(was);
      if temp == null {
        temp := new TempMap();
      }
      if newMap {
        temp.Clear();
      }
      assert temp.Contents() == base;
      var g := ParamsGroup(params);
      res := AddGroup(temp, g);
    }

    /** The guarded commit shared by a Report ID change and the last End Collection: nothing happens
        unless all three sums are whole bytes. */
    method CommitWhole() returns (res: int, committed: bool)
      requires Valid()
      modifies Repr()
      ensures Valid() && fresh(Repr() - old(Repr()))
      ensures !WholeBytes(old(params)) ==> res == 0 && !committed && State() == old(State())
      ensures WholeBytes(old(params)) ==>
                var r := Commit(old(State()));
                && State() == r.machine
                && res == (if r.ok then 0 else -1)
                && committed == r.ok
    {
      res, committed := 0, false;
      if params.inputLen % 8 != 0 {
      } else if params.outputLen % 8 != 0 {
      } else if params.featureLen % 8 != 0 {
      } else {
        res := HandleReport();
        if res != 0 {
          step := WaitUsagePage;
          return -1, false;
        }
        newMap := false;
        committed := true;
      }
    }

    method HandleReportId(v: u32) returns (res: int)
      requires Valid()
      modifies Repr()
      ensures Valid() && fresh(Repr() - old(Repr()))
      ensures var r := OnReportId(old(State()), v);
              State() == r.machine && res == if r.ok then 0 else -1
    {
      if params.reportId != 0 && params.reportId != v {
        var committed;
        res, committed := CommitWhole();
        if res != 0 {
          return;
        }
        if committed {
          params := params.(inputLen := 0, outputLen := 0, featureLen := 0);
          params := params.(usage := params.innerUsage, usagePage := params.innerUsagePage);
        }
      }
      params := params.(reportId := Low8(v));
      return 0;
    }

    method HandleEnd() returns (res: int)
      requires Valid()
      modifies Repr()
      ensures Valid() && fresh(Repr() - old(Repr()))
      ensures var r := OnEnd(old(State()));
              State() == r.machine && res == if r.ok then 0 else -1
    {
      depth := Low8(depth - 1);
      if depth == 0 {
        var committed;
        res, committed := CommitWhole();
        if res != 0 {
          return;
        }
        step := WaitUsagePage;
      }
      return 0;
    }

    method HandleBody(cmd: Item) returns (res: int)
      requires Valid() && step == WaitEndCollection
      modifies Repr()
      ensures Valid() && fresh(Repr() - old(Repr()))
      ensures var r := InBody(old(State()), cmd);
              State() == r.machine && res == if r.ok then 0 else -1
    {
      var v := cmd.Value();
      res := 0;
      if cmd.tag == RM_REPORT_ID {
        res := HandleReportId(v);
      } else if cmd.tag == RM_USAGE_PAGE {
        params := params.(innerUsagePage := Low16(v));
      } else if cmd.tag == RM_USAGE {
        params := params.(innerUsage := Low16(v));
      } else if cmd.tag == RM_REPORT_SIZE {
        size := Low16(v);
      } else if cmd.tag == RM_REPORT_COUNT {
        count := Low16(v);
      } else if cmd.tag == RM_INPUT {
        params := params.(inputLen := Low16(params.inputLen + Times(size, count)));
      } else if cmd.tag == RM_OUTPUT {
        params := params.(outputLen := Low16(params.outputLen + Times(size, count)));
      } else if cmd.tag == RM_FEATURE {
        params := params.(featureLen := Low16(params.featureLen + Times(size, count)));
      } else if cmd.tag == RM_COLLECTION {
        depth := Low8(depth + 1);
      } else if cmd.tag == RM_END_COLLECTION {
        res := HandleEnd();
      }
    }

    /** Handle one item: 0 when it is accepted, -1 when it ends the call. */
    method HandleCmd(cmd: Item) returns (res: int)
      requires Valid()
      modifies Repr()
      ensures Valid() && fresh(Repr() - old(Repr()))
      ensures var r := Handle(old(State()), cmd);
              State() == r.machine && res == if r.ok then 0 else -1
    {
      var v := cmd.Value();
      match step {
        case WaitUsagePage =>
          if cmd.tag != RM_USAGE_PAGE {
            return -1;
          }
          size, count := 0, 0;
          params := ZERO_PARAMS;
          params := params.(usagePage := Low16(v));
          step := WaitUsage;
        case WaitUsage =>
          if cmd.tag != RM_USAGE {
            step := WaitUsagePage;
            return -1;
          }
          params := params.(usage := Low16(v));
          step := WaitCollection;
        case WaitCollection =>
          if cmd.tag != RM_COLLECTION {
            step := WaitUsagePage;
            return -1;
          }
          if v != 1 {
            step := WaitUsagePage;
            return -1;
          }
          params := params.(reportId := 0);
          depth := 1;
          step := WaitEndCollection;
        case WaitEndCollection =>
          res := HandleBody(cmd);
          return;
      }
      return 0;
    }

    /** One turn of the loop over the bytes: read an item and handle it. */
    method HandleNext(data: seq<u8>, index: nat) returns (accepted: bool, next: nat)
      requires Valid() && index < |data|
      modifies Repr()
      ensures Valid() && fresh(Repr() - old(Repr()))
      ensures accepted ==> index < next <= |data|
      ensures RunBytes(old(State()), data[index..])
           == if accepted then RunBytes(State(), data[next..]) else Progress(State(), false)
    {
      hide Tokenise, Run, RunBytes, Handle;
      ghost var was := State();
      var res, cmd := ParseCmd(data, index);
      if res < 0 {
        RunBytesTruncated(was, data[index..]);
        return false, index;
      }
      next := index + res;
      RunBytesStep(was, data[index..], cmd, data[next..]);
      res := HandleCmd(cmd);
      accepted := res == 0;
    }

    /** The loop over the bytes: false as soon as an item is truncated or refused. */
    method HandleBytes(data: seq<u8>) returns (accepted: bool)
      requires Valid()
      modifies Repr()
      ensures Valid() && fresh(Repr() - old(Repr()))
      ensures Progress(State(), accepted) == RunBytes(old(State()), data)
    {
      var index := 0;
      ghost var goal := RunBytes(State(), data);
      assert data[0..] == data;
      while index < |data|
        invariant index <= |data|
        invariant Valid() && fresh(Repr() - old(Repr()))
        invariant RunBytes(State(), data[index..]) == goal
        decreases |data| - index
      {
        accepted, index := HandleNext(data, index);
        if !accepted {
          return;
        }
      }
      accepted := true;
    }

    /** Parse a descriptor, leaving the file-static state as the C function leaves it. */
    method ParseReportMap(data: seq<u8>) returns (outcome: Outcome)
      requires Valid()
      modifies Repr()
      ensures Valid() && fresh(Repr() - old(Repr()))
      ensures Return(State(), outcome) == Parse(old(State()), data)
    {
      newMap := true;
      var accepted := HandleBytes(data);
      if !accepted {
        return Rejected;
      }
      if temp == null {
        return NullMap;
      }
      var u := temp.DominantUsage();
      outcome := Parsed(ReportMap(u, AppearanceOf(u), temp.reports[..temp.reportsLen]));
      temp := null;
    }

    /** The reports of one group, in the order the C code appends them. */
    static method AddGroup(map_: TempMap, g: Group) returns (res: int)
      requires map_.Valid()
      requires g.input < 0x1_0000 && g.output < 0x1_0000 && g.feature < 0x1_0000
      modifies map_, map_.reports
      ensures map_.Valid()
      ensures res == if |Add(old(map_.Contents()), g).reports| > MAX_REPORTS then -1 else 0
      ensures map_.Contents() == Capped(Add(old(map_.Contents()), g))
    {
      ghost var l := Add(map_.Contents(), g);
      ghost var start := map_.Contents().reports;
      ghost var a := Items(g, TYPE_INPUT, g.input, None);
      ghost var b := Items(g, TYPE_OUTPUT, g.output, None);
      ghost var c := Items(g, TYPE_FEATURE, g.feature, None);
      ghost var ak := Items(g, TYPE_INPUT, g.input, Some(8));
      ghost var bk := Items(g, TYPE_OUTPUT, g.output, Some(1));
      CapStep(start, a + b, c, l.mask);
      CapStep(start, a, b, l.mask);
      CapStep(start, ak, bk, l.mask);
      var class_ := UsageClass(g.page, g.usage);
      map_.SetUsage(class_);
      match class_ {
        case Keyboard =>
          res := map_.AddKind(g, TYPE_INPUT, g.input, Some(8));
          if res != 0 { return; }
          res := map_.AddKind(g, TYPE_OUTPUT, g.output, Some(1));
        case Mouse =>
          res := map_.AddKind(g, TYPE_INPUT, g.input, Some(3));
        case _ =>
          res := map_.AddKind(g, TYPE_INPUT, g.input, None);
          if res != 0 { return; }
          res := map_.AddKind(g, TYPE_OUTPUT, g.output, None);
          if res != 0 { return; }
          res := map_.AddKind(g, TYPE_FEATURE, g.feature, None);
      }
    }
  }
}
