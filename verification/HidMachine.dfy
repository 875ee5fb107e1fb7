/** The streaming parser as a transition function on its file-static state
    (esp_hid/src/esp_hid_common.c:44-55, 194-401). Every 8-, 16- and 32-bit truncation of the C code
    is written out. */
module HidMachine {
  import opened HidTypes
  import opened ShortItems
  import opened HidReference

  datatype Step = WaitUsagePage | WaitUsage | WaitCollection | WaitEndCollection

  datatype Params = Params(
    usagePage: u16, usage: u16, innerUsagePage: u16, innerUsage: u16,
    reportId: u8, inputLen: u16, outputLen: u16, featureLen: u16)

  const ZERO_PARAMS := Params(0, 0, 0, 0, 0, 0, 0, 0)

  /** `temp` is the heap map the next report is appended to; None is the null pointer. */
  datatype Machine = Machine(
    step: Step, depth: u8, params: Params, size: u16, count: u16, newMap: bool, temp: Option<Listing>)

  const FRESH := Machine(WaitUsagePage, 0, ZERO_PARAMS, 0, 0, false, None)

  datatype Reply = Reply(machine: Machine, ok: bool)

  /** What the next report is appended to: nothing when a new map is due. */
  function Base(m: Machine): Listing {
    if m.newMap || m.temp == None then EMPTY else m.temp.value
  }

  function ParamsGroup(p: Params): Group {
    Group(p.usagePage, p.usage, p.reportId, p.inputLen, p.outputLen, p.featureLen)
  }

  predicate WholeBytes(p: Params) {
    p.inputLen % 8 == 0 && p.outputLen % 8 == 0 && p.featureLen % 8 == 0
  }

  /** A listing cut off at the capacity of the report buffer. */
  function Capped(l: Listing): Listing {
    Listing(l.mask, if |l.reports| <= MAX_REPORTS then l.reports else l.reports[..MAX_REPORTS])
  }

  /** Append the current group; on overflow the buffer is left full and the step goes idle. */
  function Commit(m: Machine): Reply {
    var l := Add(Base(m), ParamsGroup(m.params));
    if |l.reports| <= MAX_REPORTS
    then Reply(m.(temp := Some(l), newMap := false), true)
    else Reply(m.(temp := Some(Capped(l)), step := WaitUsagePage), false)
  }

  function OnReportId(m: Machine, v: u32): Reply {
    if m.params.reportId != 0 && m.params.reportId != v && WholeBytes(m.params) then
      var r := Commit(m);
      if r.ok then
        var p := m.params.(inputLen := 0, outputLen := 0, featureLen := 0,
                           usage := m.params.innerUsage, usagePage := m.params.innerUsagePage, reportId := Low8(v));
        Reply(r.machine.(params := p), true)
      else r
    else
      Reply(m.(params := m.params.(reportId := Low8(v))), true)
  }

  function OnEnd(m: Machine): Reply {
    var d := m.(depth := Low8(m.depth - 1));
    if d.depth != 0 then Reply(d, true)
    else if !WholeBytes(d.params) then Reply(d.(step := WaitUsagePage), true)
    else
      var r := Commit(d);
      Reply(r.machine.(step := WaitUsagePage), r.ok)
  }

  function InBody(m: Machine, cmd: Item): Reply {
    var p, v := m.params, cmd.Value();
    var bits := Times(m.size, m.count);
    if cmd.tag == RM_REPORT_ID then OnReportId(m, v)
    else if cmd.tag == RM_USAGE_PAGE then Reply(m.(params := p.(innerUsagePage := Low16(v))), true)
    else if cmd.tag == RM_USAGE then Reply(m.(params := p.(innerUsage := Low16(v))), true)
    else if cmd.tag == RM_REPORT_SIZE then Reply(m.(size := Low16(v)), true)
    else if cmd.tag == RM_REPORT_COUNT then Reply(m.(count := Low16(v)), true)
    else if cmd.tag == RM_INPUT then Reply(m.(params := p.(inputLen := Low16(p.inputLen + bits))), true)
    else if cmd.tag == RM_OUTPUT then Reply(m.(params := p.(outputLen := Low16(p.outputLen + bits))), true)
    else if cmd.tag == RM_FEATURE then Reply(m.(params := p.(featureLen := Low16(p.featureLen + bits))), true)
    else if cmd.tag == RM_COLLECTION then Reply(m.(depth := Low8(m.depth + 1)), true)
    else if cmd.tag == RM_END_COLLECTION then OnEnd(m)
    else Reply(m, true)
  }

  function Handle(m: Machine, cmd: Item): Reply {
    var v := cmd.Value();
    match m.step
    case WaitUsagePage =>
      if cmd.tag != RM_USAGE_PAGE then Reply(m, false)
      else Reply(m.(size := 0, count := 0, params := ZERO_PARAMS.(usagePage := Low16(v)), step := WaitUsage), true)
    case WaitUsage =>
      if cmd.tag != RM_USAGE then Reply(m.(step := WaitUsagePage), false)
      else Reply(m.(params := m.params.(usage := Low16(v)), step := WaitCollection), true)
    case WaitCollection =>
      if cmd.tag != RM_COLLECTION || v != 1 then Reply(m.(step := WaitUsagePage), false)
      else Reply(m.(params := m.params.(reportId := 0), depth := 1, step := WaitEndCollection), true)
    case WaitEndCollection => InBody(m, cmd)
  }

  /** Handle items until one is refused. */
  function Run(m: Machine, items: seq<Item>): Reply
    decreases |items|
  {
    if items == [] then Reply(m, true)
    else
      var r := Handle(m, items[0]);
      if r.ok then Run(r.machine, items[1..]) else r
  }

  datatype Return = Return(machine: Machine, outcome: Outcome)

  /** The end of a call in which every item was accepted: hand over the map and forget it. */
  function Finish(m: Machine): Return {
    match m.temp
    case None => Return(m, NullMap)
    case Some(l) => Return(m.(temp := None), Parsed(Present(l)))
  }

  datatype Progress = Progress(machine: Machine, accepted: bool)

  /** Run the items of some bytes; a truncated item at the end is refused. */
  function RunBytes(m: Machine, data: seq<u8>): Progress {
    var t := Tokenise(data);
    var r := Run(m, t.items);
    Progress(r.machine, r.ok && t.complete)
  }

  lemma RunBytesStep(m: Machine, data: seq<u8>, cmd: Item, rest: seq<u8>)
    requires Tokenise(data) == Tokens([cmd] + Tokenise(rest).items, Tokenise(rest).complete)
    ensures var r := Handle(m, cmd);
            RunBytes(m, data) == if r.ok then RunBytes(r.machine, rest) else Progress(r.machine, false)
  {
    assert Tokenise(data).items[1..] == Tokenise(rest).items;
  }

  lemma RunBytesTruncated(m: Machine, data: seq<u8>)
    requires Tokenise(data) == Tokens([], false)
    ensures RunBytes(m, data) == Progress(m, false)
  {
  }

  /** One call of the parser. */
  function Parse(m: Machine, data: seq<u8>): Return {
    var p := RunBytes(m.(newMap := true), data);
    if p.accepted then Finish(p.machine) else Return(p.machine, Rejected)
  }
}
