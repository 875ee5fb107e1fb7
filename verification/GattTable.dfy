/** The GATT attribute table of the HID service: a sizing pass, a filling pass, linking the handles the stack
    assigns, and looking a report up by handle (esp_hid/src/ble_hidd.c:96-121, 187-196, 254-360). */
module GattTable {
  import opened HidTypes

  /** hidd_report_item_t; `index`, `handle` and `cccHandle` are filled in here. */
  datatype Report = Report(
    mapIndex: u8, reportId: u8, reportType: u8, protocolMode: u8, usage: Usage, valueLen: u16,
    index: u8, handle: u16, cccHandle: u16)

  datatype Uuid =
    | PrimaryService | IncludedService | CharDeclaration | ClientConfig
    | HidInformation | ControlPoint | ProtocolMode | ReportMapChar | ExternalReference
    | ReportChar | ReportReference | BootKeyboardInput | BootKeyboardOutput | BootMouseInput

  datatype Permission = Read | ReadEncrypted | Write | WriteEncrypted

  datatype Property = CanRead | CanWrite | CanWriteNoResponse | CanNotify

  /** What an attribute's value pointer refers to. */
  datatype Value =
    | NoValue | HidServiceUuid | IncludedHandles | Properties(ps: set<Property>) | InformationBytes
    | ProtocolByte | MapBytes | BatteryUuid | ReportIdOf(i: nat)

  datatype Attr = Attr(uuid: Uuid, perm: set<Permission>, maxLength: nat, length: nat, value: Value)

  const BLANK := Attr(CharDeclaration, {}, 0, 0, NoValue)

  /** HIDD_LE_IDX_NB: the records before the first report. */
  const FIXED: nat := 11

  const MAP_MAX: nat := 512
  const INCLUDED_SIZE: nat := 6  // two handles and a UUID
  const BOOT_MAX: nat := 8

  function Declaration(ps: set<Property>): Attr {
    Attr(CharDeclaration, {Read}, 1, 1, Properties(ps))
  }

  function FixedAttrs(mapLen: nat): seq<Attr> {
    [Attr(PrimaryService, {ReadEncrypted}, 2, 2, HidServiceUuid),
     Attr(IncludedService, {Read}, INCLUDED_SIZE, INCLUDED_SIZE, IncludedHandles),
     Declaration({CanRead}),
     Attr(HidInformation, {Read}, 4, 4, InformationBytes),
     Declaration({CanWriteNoResponse}),
     Attr(ControlPoint, {Read, Write}, 1, 0, NoValue),
     Declaration({CanWriteNoResponse, CanRead}),
     Attr(ProtocolMode, {Read, Write}, 1, 1, ProtocolByte),
     Declaration({CanRead}),
     Attr(ReportMapChar, {Read}, MAP_MAX, mapLen, MapBytes),
     Attr(ExternalReference, {Read}, 2, 2, BatteryUuid)]
  }

  predicate IsInput(r: Report) { r.reportType == TYPE_INPUT }

  predicate IsReportMode(r: Report) { r.protocolMode == MODE_REPORT }

  // ---- the table, report by report ----

  /** The declaration of report i and what follows it. */
  function DeclarationOf(r: Report): Attr {
    if IsInput(r) then Declaration({CanRead, CanNotify})
    else if r.reportType == TYPE_OUTPUT || !IsReportMode(r) then Declaration({CanWrite, CanWriteNoResponse, CanRead})
    else Declaration({CanWrite, CanRead})
  }

  function ValueOf(r: Report): Attr {
    if IsReportMode(r) then Attr(ReportChar, if IsInput(r) then {Read} else {Read, Write}, r.valueLen, 0, NoValue)
    else if IsInput(r) then
      Attr(if r.usage == Keyboard then BootKeyboardInput else BootMouseInput, {Read}, BOOT_MAX, 0, NoValue)
    else Attr(BootKeyboardOutput, {Read, Write}, BOOT_MAX, 0, NoValue)
  }

  function ConfigOf(r: Report): Attr {
    Attr(ClientConfig, if IsReportMode(r) then {Read, WriteEncrypted} else {Read, Write}, 2, 0, NoValue)
  }

  function ReferenceOf(i: nat): Attr {
    Attr(ReportReference, {Read}, 2, 2, ReportIdOf(i))
  }

  function Block(r: Report, i: nat): seq<Attr> {
    [DeclarationOf(r), ValueOf(r)]
    + (if IsInput(r) then [ConfigOf(r)] else [])
    + (if IsReportMode(r) then [ReferenceOf(i)] else [])
  }

  function Blocks(rs: seq<Report>, n: nat): seq<Attr>
    requires n <= |rs|
  {
    if n == 0 then [] else Blocks(rs, n - 1) + Block(rs[n - 1], n - 1)
  }

  /** The records the sizing pass counts for one report. */
  function AttrLen(r: Report): nat {
    (if IsInput(r) then 3 else 2) + (if IsReportMode(r) then 1 else 0)
  }

  function LenUpTo(rs: seq<Report>, n: nat): nat
    requires n <= |rs|
  {
    if n == 0 then 0 else LenUpTo(rs, n - 1) + AttrLen(rs[n - 1])
  }

  /** Where the records of report i start, and after the last report, where the table ends. */
  function Offset(rs: seq<Report>, i: nat): nat
    requires i <= |rs|
  {
    FIXED + LenUpTo(rs, i)
  }

  /** A table position as stored in the report: eight bits. */
  function Stored(position: nat): u8 { position % 0x100 }

  function Indexed(rs: seq<Report>, i: nat): Report
    requires i < |rs|
  {
    rs[i].(index := Stored(Offset(rs, i) + 1))
  }

  /** The filling pass writes what the sizing pass counted. */
  lemma {:induction false} FillingMatchesSizing(rs: seq<Report>, n: nat)
    requires n <= |rs|
    ensures |Blocks(rs, n)| == LenUpTo(rs, n)
  {
    if n > 0 {
      FillingMatchesSizing(rs, n - 1);
    }
  }

  lemma {:induction false} BlocksGrow(rs: seq<Report>, i: nat, n: nat)
    requires i <= n <= |rs|
    ensures Blocks(rs, i) <= Blocks(rs, n) && LenUpTo(rs, i) <= LenUpTo(rs, n)
  {
    FillingMatchesSizing(rs, i);
    if i < n {
      BlocksGrow(rs, i, n - 1);
    }
  }

  /** The ranges of the reports are ordered, disjoint and contiguous, each inside the table, and each range
      holds the records of its report. */
  lemma RangesOfReports(rs: seq<Report>, mapLen: nat, i: nat, j: nat)
    requires i < j <= |rs|
    ensures FIXED <= Offset(rs, i) < Offset(rs, i + 1) <= Offset(rs, j) <= Offset(rs, |rs|)
    ensures var table := FixedAttrs(mapLen) + Blocks(rs, |rs|);
            |table| == Offset(rs, |rs|) && table[Offset(rs, i)..Offset(rs, i + 1)] == Block(rs[i], i)
  {
    BlocksGrow(rs, i + 1, j);
    BlocksGrow(rs, j, |rs|);
    BlocksGrow(rs, i + 1, |rs|);
    FillingMatchesSizing(rs, |rs|);
    BlockInside(rs, i);
    var lo, hi := LenUpTo(rs, i), LenUpTo(rs, i + 1);
    assert AttrLen(rs[i]) > 0;
    hide Blocks, Block;
    SliceAfter(FixedAttrs(mapLen), Blocks(rs, |rs|), lo, hi);
  }

  lemma SliceAfter(a: seq<Attr>, b: seq<Attr>, lo: nat, hi: nat)
    requires lo <= hi <= |b|
    ensures (a + b)[|a| + lo..|a| + hi] == b[lo..hi]
  {
  }

  /** The records of report i are those from its offset to the next. */
  lemma BlockInside(rs: seq<Report>, i: nat)
    requires i < |rs|
    ensures LenUpTo(rs, i) <= LenUpTo(rs, i + 1) <= |Blocks(rs, |rs|)|
    ensures Blocks(rs, |rs|)[LenUpTo(rs, i)..LenUpTo(rs, i + 1)] == Block(rs[i], i)
  {
    FillingMatchesSizing(rs, i);
    FillingMatchesSizing(rs, i + 1);
    FillingMatchesSizing(rs, |rs|);
    BlocksGrow(rs, i + 1, |rs|);
    hide Block;
    var all, upto := Blocks(rs, |rs|), Blocks(rs, i + 1);
    var lo, hi := LenUpTo(rs, i), LenUpTo(rs, i + 1);
    assert all[..hi] == upto;
    assert all[lo..hi] == all[..hi][lo..];
    assert upto == Blocks(rs, i) + Block(rs[i], i);
  }

  // ---- which records stand where ----

  function TableOf(rs: seq<Report>, mapLen: nat): seq<Attr> {
    FixedAttrs(mapLen) + Blocks(rs, |rs|)
  }

  /** What the declaration of a report allows its value. */
  function PropertiesOf(r: Report): set<Property> {
    if r.reportType == 1 then {CanRead, CanNotify}
    else if r.protocolMode == 1 && r.reportType != 2 then {CanRead, CanWrite}
    else {CanRead, CanWrite, CanWriteNoResponse}
  }

  /** The characteristic of a report, and the length of its value. */
  function UuidOf(r: Report): Uuid {
    if r.protocolMode == 1 then ReportChar
    else if r.reportType != 1 then BootKeyboardOutput
    else if r.usage == Keyboard then BootKeyboardInput else BootMouseInput
  }

  /** Who may write a client configuration. */
  function ConfigAccess(r: Report): set<Permission> {
    {Read, if r.protocolMode == 1 then WriteEncrypted else Write}
  }

  lemma BlockRecords(r: Report, i: nat)
    ensures var b := Block(r, i);
            && |b| == AttrLen(r)
            && b[0] == Attr(CharDeclaration, {Read}, 1, 1, Properties(PropertiesOf(r)))
            && b[1] == Attr(UuidOf(r), if r.reportType == 1 then {Read} else {Read, Write},
                            if r.protocolMode == 1 then r.valueLen else 8, 0, NoValue)
            && (r.reportType == 1 ==>
                  b[2] == Attr(ClientConfig, ConfigAccess(r), 2, 0, NoValue))
            && (r.protocolMode == 1 ==> b[|b| - 1] == Attr(ReportReference, {Read}, 2, 2, ReportIdOf(i)))
  {
    assert {CanWrite, CanRead} == {CanRead, CanWrite};
    assert {CanWrite, CanWriteNoResponse, CanRead} == {CanRead, CanWrite, CanWriteNoResponse};
  }

  /** In the table, whatever other reports there are: the record before a report's value declares it with the properties
      of its kind, the one at its value position has the characteristic, permissions and length of its kind, an input
      report's client configuration follows, and a report-protocol report's reference is the last of its range. */
  lemma RecordsOfReport(rs: seq<Report>, mapLen: nat, i: nat)
    requires i < |rs|
    ensures var t, r := TableOf(rs, mapLen), rs[i];
            var v, e := ValuePosition(rs, i), Offset(rs, i + 1);
            && 1 <= v < e <= |t|
            && t[v - 1] == Attr(CharDeclaration, {Read}, 1, 1, Properties(PropertiesOf(r)))
            && t[v] == Attr(UuidOf(r), if r.reportType == 1 then {Read} else {Read, Write},
                            if r.protocolMode == 1 then r.valueLen else 8, 0, NoValue)
            && (r.reportType == 1 ==>
                  && ConfigPosition(rs, i) == v + 1 < e
                  && t[v + 1] == Attr(ClientConfig, ConfigAccess(r), 2, 0, NoValue))
            && (r.protocolMode == 1 ==> t[e - 1] == Attr(ReportReference, {Read}, 2, 2, ReportIdOf(i)))
  {
    var t := TableOf(rs, mapLen);
    RangesOfReports(rs, mapLen, i, i + 1);
    BlockRecords(rs[i], i);
    hide Block, Blocks, LenUpTo, FixedAttrs, PropertiesOf, UuidOf;
    var lo, hi := Offset(rs, i), Offset(rs, i + 1);
    var b := t[lo..hi];
    assert b[0] == t[lo] && b[1] == t[lo + 1];
    assert rs[i].reportType == 1 ==> b[2] == t[lo + 2];
    assert b[|b| - 1] == t[hi - 1];
  }

  predicate IsDescriptor(u: Uuid) {
    u == CharDeclaration || u == ClientConfig || u == ReportReference || u == ExternalReference
    || u == PrimaryService || u == IncludedService
  }

  /** A declaration stands right before a value that allows what it declares, and a client configuration follows exactly
      when it declares notification. */
  predicate Paired(t: seq<Attr>, p: nat)
    requires p < |t|
  {
    t[p].uuid == CharDeclaration ==>
      && p + 1 < |t| && t[p].value.Properties? && !IsDescriptor(t[p + 1].uuid)
      && (CanRead in t[p].value.ps ==> Read in t[p + 1].perm)
      && (CanWrite in t[p].value.ps || CanWriteNoResponse in t[p].value.ps ==> Write in t[p + 1].perm)
      && (CanNotify in t[p].value.ps <==> p + 2 < |t| && t[p + 2].uuid == ClientConfig)
  }

  predicate AllPaired(t: seq<Attr>) {
    forall p :: 0 <= p < |t| ==> Paired(t, p)
  }

  lemma AppendPaired(t: seq<Attr>, b: seq<Attr>)
    requires AllPaired(t) && AllPaired(b) && (b != [] ==> b[0].uuid == CharDeclaration)
    ensures AllPaired(t + b)
  {
    forall p | 0 <= p < |t + b|
      ensures Paired(t + b, p)
    {
      if p < |t| {
        assert Paired(t, p);
      } else {
        assert Paired(b, p - |t|);
        assert (t + b)[p] == b[p - |t|];
      }
    }
  }

  lemma BlockPaired(r: Report, i: nat)
    ensures AllPaired(Block(r, i)) && Block(r, i)[0].uuid == CharDeclaration
  {
  }

  lemma {:induction false} BlocksPaired(rs: seq<Report>, mapLen: nat, n: nat)
    requires n <= |rs|
    ensures AllPaired(FixedAttrs(mapLen) + Blocks(rs, n))
  {
    var fixed := FixedAttrs(mapLen);
    hide AllPaired, Block;
    if n == 0 {
      FixedPaired(mapLen);
      assert fixed + [] == fixed;
    } else {
      BlocksPaired(rs, mapLen, n - 1);
      BlockPaired(rs[n - 1], n - 1);
      AppendPaired(fixed + Blocks(rs, n - 1), Block(rs[n - 1], n - 1));
      assert fixed + Blocks(rs, n) == fixed + Blocks(rs, n - 1) + Block(rs[n - 1], n - 1);
    }
  }

  lemma FixedPaired(mapLen: nat)
    ensures AllPaired(FixedAttrs(mapLen))
  {
  }

  /** Every table is paired from end to end, the fixed records included. */
  lemma TableIsPaired(rs: seq<Report>, mapLen: nat)
    ensures AllPaired(TableOf(rs, mapLen))
  {
    BlocksPaired(rs, mapLen, |rs|);
  }

  // ---- the two passes ----

  method SizeReports(reports: array<Report>) returns (len: nat)
    ensures len == LenUpTo(reports[..], reports.Length)
  {
    len := 0;
    for i := 0 to reports.Length
      invariant len == LenUpTo(reports[..], i)
    {
      if reports[i].reportType == TYPE_INPUT {
        len := len + 3;
      } else {
        len := len + 2;
      }
      if reports[i].protocolMode == MODE_REPORT {
        len := len + 1;
      }
    }
  }

  method AddDbRecord(db: array<Attr>, index: nat, attr: Attr)
    requires index < db.Length
    modifies db
    ensures db[..index + 1] == old(db[..index]) + [attr]
  {
    db[index] := attr;
  }

  /** Write the records of one report from `index` on; `value` is the position of its value record. */
  method FillReport(db: array<Attr>, index: nat, r: Report, i: nat) returns (next: nat, value: nat)
    requires index + AttrLen(r) <= db.Length
    modifies db
    ensures next == index + AttrLen(r) && value == index + 1
    ensures db[..next] == old(db[..index]) + Block(r, i)
  {
    next := index;
    value := index + 1;
    if r.protocolMode == MODE_REPORT {
      if r.reportType == TYPE_INPUT {
        AddDbRecord(db, next, Declaration({CanRead, CanNotify}));
        AddDbRecord(db, next + 1, Attr(ReportChar, {Read}, r.valueLen, 0, NoValue));
        AddDbRecord(db, next + 2, Attr(ClientConfig, {Read, WriteEncrypted}, 2, 0, NoValue));
        next := next + 3;
      } else if r.reportType == TYPE_OUTPUT {
        AddDbRecord(db, next, Declaration({CanWrite, CanWriteNoResponse, CanRead}));
        AddDbRecord(db, next + 1, Attr(ReportChar, {Read, Write}, r.valueLen, 0, NoValue));
        next := next + 2;
      } else {
        AddDbRecord(db, next, Declaration({CanWrite, CanRead}));
        AddDbRecord(db, next + 1, Attr(ReportChar, {Read, Write}, r.valueLen, 0, NoValue));
        next := next + 2;
      }
      AddDbRecord(db, next, Attr(ReportReference, {Read}, 2, 2, ReportIdOf(i)));
      next := next + 1;
    } else if r.reportType == TYPE_INPUT {
      AddDbRecord(db, next, Declaration({CanRead, CanNotify}));
      var uuid := if r.usage == Keyboard then BootKeyboardInput else BootMouseInput;
      AddDbRecord(db, next + 1, Attr(uuid, {Read}, BOOT_MAX, 0, NoValue));
      AddDbRecord(db, next + 2, Attr(ClientConfig, {Read, Write}, 2, 0, NoValue));
      next := next + 3;
    } else {
      AddDbRecord(db, next, Declaration({CanWrite, CanWriteNoResponse, CanRead}));
      AddDbRecord(db, next + 1, Attr(BootKeyboardOutput, {Read, Write}, BOOT_MAX, 0, NoValue));
      next := next + 2;
    }
  }

  method FillFixed(db: array<Attr>, mapLen: nat)
    requires db.Length >= FIXED
    modifies db
    ensures db[..FIXED] == FixedAttrs(mapLen)
  {
    AddDbRecord(db, 0, Attr(PrimaryService, {ReadEncrypted}, 2, 2, HidServiceUuid));
    AddDbRecord(db, 1, Attr(IncludedService, {Read}, INCLUDED_SIZE, INCLUDED_SIZE, IncludedHandles));
    AddDbRecord(db, 2, Declaration({CanRead}));
    AddDbRecord(db, 3, Attr(HidInformation, {Read}, 4, 4, InformationBytes));
    AddDbRecord(db, 4, Declaration({CanWriteNoResponse}));
    AddDbRecord(db, 5, Attr(ControlPoint, {Read, Write}, 1, 0, NoValue));
    AddDbRecord(db, 6, Declaration({CanWriteNoResponse, CanRead}));
    AddDbRecord(db, 7, Attr(ProtocolMode, {Read, Write}, 1, 1, ProtocolByte));
    AddDbRecord(db, 8, Declaration({CanRead}));
    AddDbRecord(db, 9, Attr(ReportMapChar, {Read}, MAP_MAX, mapLen, MapBytes));
    AddDbRecord(db, 10, Attr(ExternalReference, {Read}, 2, 2, BatteryUuid));
  }

  /** The filling pass over all reports. */
  method FillReports(db: array<Attr>, reports: array<Report>) returns (index: nat)
    requires db.Length >= Offset(reports[..], reports.Length)
    modifies db, reports
    ensures index == Offset(old(reports[..]), reports.Length)
    ensures db[..index] == old(db[..FIXED]) + Blocks(old(reports[..]), reports.Length)
    ensures forall i :: 0 <= i < reports.Length ==> reports[i] == Indexed(old(reports[..]), i)
  {
    hide Block, Indexed;
    ghost var rs, fixed := reports[..], db[..FIXED];
    index := FIXED;
    assert fixed + Blocks(rs, 0) == fixed;
    for i := 0 to reports.Length
      invariant index == Offset(rs, i) <= Offset(rs, reports.Length)
      invariant db[..index] == fixed + Blocks(rs, i)
      invariant forall k :: 0 <= k < i ==> reports[k] == Indexed(rs, k)
      invariant forall k :: i <= k < reports.Length ==> reports[k] == rs[k]
    {
      BlocksGrow(rs, i + 1, reports.Length);
      index := FillAt(db, index, reports, i);
      assert fixed + Blocks(rs, i) + Block(rs[i], i) == fixed + Blocks(rs, i + 1);
      IndexedAt(rs, i);
    }
  }

  lemma IndexedAt(rs: seq<Report>, i: nat)
    requires i < |rs|
    ensures Indexed(rs, i) == rs[i].(index := Stored(Offset(rs, i) + 1))
  {
  }

  method FillAt(db: array<Attr>, index: nat, reports: array<Report>, i: nat) returns (next: nat)
    requires i < reports.Length && index + AttrLen(reports[i]) <= db.Length
    modifies db, reports
    ensures next == index + AttrLen(old(reports[i]))
    ensures db[..next] == old(db[..index]) + Block(old(reports[i]), i)
    ensures reports[i] == old(reports[i]).(index := Stored(index + 1))
    ensures forall k :: 0 <= k < reports.Length && k != i ==> reports[k] == old(reports[k])
  {
    var value;
    next, value := FillReport(db, index, reports[i], i);
    reports[i] := reports[i].(index := Stored(value));
  }

  /** Size, allocate and fill the table, recording in each report where its value is. Every record is
      written inside the allocation, which is used up to the spare room for other devices. */
  method CreateHidDb(reports: array<Report>, devicesLen: nat, mapLen: nat) returns (db: array<Attr>, index: nat)
    modifies reports
    ensures fresh(db) && db.Length == index + 3 * devicesLen
    ensures index == Offset(old(reports[..]), reports.Length)
    ensures db[..index] == FixedAttrs(mapLen) + Blocks(old(reports[..]), reports.Length)
    ensures forall i :: 0 <= i < reports.Length ==> reports[i] == Indexed(old(reports[..]), i)
  {
    var len := SizeReports(reports);
    db := new Attr[FIXED + len + 3 * devicesLen](_ => BLANK);
    FillFixed(db, mapLen);
    index := FillReports(db, reports);
  }

  // ---- linking handles ----

  function HandleAt(handles: seq<u16>, position: nat): u16 {
    if position < |handles| then handles[position] else 0
  }

  /** Only an input report's configuration handle is written. */
  function Link(r: Report, handles: seq<u16>): Report {
    r.(handle := HandleAt(handles, r.index),
       cccHandle := if IsInput(r) then HandleAt(handles, r.index + 1) else r.cccHandle)
  }

  predicate Linkable(r: Report, handles: seq<u16>) {
    r.index as int < |handles| && (IsInput(r) ==> r.index as int + 1 < |handles|)
  }

  method LinkReportHandles(reports: array<Report>, handles: seq<u16>)
    requires forall i :: 0 <= i < reports.Length ==> Linkable(reports[i], handles)
    modifies reports
    ensures forall i :: 0 <= i < reports.Length ==> reports[i] == Link(old(reports[i]), handles)
  {
    for i := 0 to reports.Length
      invariant forall k :: 0 <= k < i ==> reports[k] == Link(old(reports[k]), handles)
      invariant forall k :: i <= k < reports.Length ==> reports[k] == old(reports[k])
    {
      var r := reports[i].(handle := handles[reports[i].index]);
      if r.reportType == TYPE_INPUT {
        r := r.(cccHandle := handles[r.index + 1]);
      }
      reports[i] := r;
    }
  }

  // ---- looking a report up ----

  predicate Holds(r: Report, h: u16) {
    r.handle == h || r.cccHandle == h
  }

  predicate Earlier(d: nat, i: nat, e: nat, j: nat) {
    d < e || (d == e && i < j)
  }

  /** (d, i) is the first report, device by device, that holds the handle. */
  predicate FirstHolder(devs: seq<seq<Report>>, h: u16, d: nat, i: nat) {
    && d < |devs| && i < |devs[d]| && Holds(devs[d][i], h)
    && (forall e: nat, j: nat :: e < |devs| && j < |devs[e]| && Earlier(e, j, d, i) ==> !Holds(devs[e][j], h))
  }

  predicate NoHolder(devs: seq<seq<Report>>, h: u16) {
    forall d, i :: 0 <= d < |devs| && 0 <= i < |devs[d]| ==> !Holds(devs[d][i], h)
  }

  /** The position of the first report holding a handle, None when there is none. */
  method GetReportByHandle(devices: seq<array<Report>>, ghost devs: seq<seq<Report>>, h: u16)
    returns (found: Option<(nat, nat)>)
    requires |devs| == |devices| && forall d :: 0 <= d < |devs| ==> devices[d][..] == devs[d]
    ensures match found
            case Some(at) => FirstHolder(devs, h, at.0, at.1)
            case None => NoHolder(devs, h)
  {
    for d := 0 to |devices|
      invariant forall e, j :: 0 <= e < d && 0 <= j < |devs[e]| ==> !Holds(devs[e][j], h)
    {
      assert devices[d][..] == devs[d];
      for i := 0 to devices[d].Length
        invariant forall j :: 0 <= j < i ==> !Holds(devs[d][j], h)
      {
        if devices[d][i].handle == h || devices[d][i].cccHandle == h {
          return Some((d, i));
        }
      }
    }
    return None;
  }

  // ---- linking, then looking up ----

  /** Where the value and the configuration record of a report are. */
  function ValuePosition(rs: seq<Report>, i: nat): nat
    requires i < |rs|
  {
    Offset(rs, i) + 1
  }

  function ConfigPosition(rs: seq<Report>, i: nat): nat
    requires i < |rs|
  {
    Offset(rs, i) + 2
  }

  /** A report after its table was created and its handles linked. */
  function Served(rs: seq<Report>, handles: seq<u16>, i: nat): Report
    requires i < |rs|
  {
    Link(Indexed(rs, i), handles)
  }

  predicate Distinct(handles: seq<seq<u16>>) {
    forall d, p, e, q | 0 <= d < |handles| && 0 <= p < |handles[d]| && 0 <= e < |handles| && 0 <= q < |handles[e]| ::
      handles[d][p] == handles[e][q] ==> d == e && p == q
  }

  /** One handle per record of each table. */
  predicate Assigned(devs: seq<seq<Report>>, handles: seq<seq<u16>>) {
    && |handles| == |devs|
    && (forall d :: 0 <= d < |devs| ==> |handles[d]| == Offset(devs[d], |devs[d]|))
  }

  /** Position p of device d belongs to report i: its value, or an input report's configuration. */
  predicate Owns(rs: seq<Report>, i: nat, p: nat)
    requires i < |rs|
  {
    p == ValuePosition(rs, i) || (IsInput(rs[i]) && p == ConfigPosition(rs, i))
  }

  lemma PositionsInTable(rs: seq<Report>, i: nat)
    requires i < |rs|
    ensures ValuePosition(rs, i) < Offset(rs, |rs|)
    ensures IsInput(rs[i]) ==> ConfigPosition(rs, i) < Offset(rs, |rs|)
  {
    BlocksGrow(rs, i + 1, |rs|);
  }

  /** The reports whose table was just created can be linked: with one handle a record every index is in range,
      wrapped or not. */
  lemma CreatedIsLinkable(rs: seq<Report>, handles: seq<u16>, i: nat)
    requires i < |rs| && |handles| == Offset(rs, |rs|)
    ensures Linkable(Indexed(rs, i), handles)
  {
    PositionsInTable(rs, i);
  }

  /** No position belongs to two reports. */
  lemma OwnerUnique(rs: seq<Report>, i: nat, j: nat, p: nat)
    requires i < |rs| && j < |rs| && Owns(rs, i, p) && Owns(rs, j, p)
    ensures i == j
  {
    if i < j {
      BlocksGrow(rs, i + 1, j);
    } else if j < i {
      BlocksGrow(rs, j + 1, i);
    }
  }

  /** The eight-bit index finds the value record exactly while its position is below 256. */
  lemma IndexExactBelow256(rs: seq<Report>, handles: seq<seq<u16>>, d: nat, i: nat)
    requires d < |handles| && Distinct(handles) && i < |rs| && |handles[d]| == Offset(rs, |rs|)
    ensures Served(rs, handles[d], i).handle == HandleAt(handles[d], ValuePosition(rs, i))
       <==> ValuePosition(rs, i) < 0x100
  {
    PositionsInTable(rs, i);
    var p := ValuePosition(rs, i);
    assert handles[d][Stored(p)] == handles[d][p] ==> Stored(p) == p;
  }

  /** Every value record is at a position the eight-bit index can hold. */
  predicate IndexesExact(devs: seq<seq<Report>>) {
    forall d, i :: 0 <= d < |devs| && 0 <= i < |devs[d]| ==> ValuePosition(devs[d], i) < 0x100
  }

  /** A report that is no input report and happens to hold the handle in the field linking leaves alone. */
  predicate StaleHolder(r: Report, h: u16) {
    !IsInput(r) && r.cccHandle == h
  }

  predicate NoneStaleBefore(devs: seq<seq<Report>>, d: nat, i: nat, h: u16) {
    forall e: nat, j: nat ::
      e < |devs| && j < |devs[e]| && Earlier(e, j, d, i) ==> !StaleHolder(devs[e][j], h)
  }

  function ServedAll(devs: seq<seq<Report>>, handles: seq<seq<u16>>): seq<seq<Report>>
    requires |handles| == |devs|
  {
    seq(|devs|, d requires 0 <= d < |devs| =>
      seq(|devs[d]|, i requires 0 <= i < |devs[d]| => Served(devs[d], handles[d], i)))
  }

  /** With exact indexes and distinct handles, a linked report holds the handle of position (d, p) exactly when
      it owns that position or holds the handle by accident. */
  lemma WhoHolds(devs: seq<seq<Report>>, handles: seq<seq<u16>>, d: nat, p: nat, e: nat, j: nat)
    requires Assigned(devs, handles) && IndexesExact(devs) && Distinct(handles)
    requires d < |devs| && p < |handles[d]| && e < |devs| && j < |devs[e]|
    ensures Holds(Served(devs[e], handles[e], j), handles[d][p])
       <==> (e == d && Owns(devs[d], j, p)) || StaleHolder(devs[e][j], handles[d][p])
  {
    PositionsInTable(devs[e], j);
    var r := devs[e][j];
    var v, c := ValuePosition(devs[e], j), ConfigPosition(devs[e], j);
    assert Stored(v) == v;
    assert Served(devs[e], handles[e], j).handle == handles[e][v];
    assert IsInput(r) ==> Served(devs[e], handles[e], j).cccHandle == handles[e][c];
  }

  /** Linking and then looking up is the identity: the handle of a report's value, or of an input report's
      configuration, finds that report, exactly unless an earlier non-input report holds the same number in
      its uninitialised configuration handle. */
  lemma LookupFindsOwner(devs: seq<seq<Report>>, handles: seq<seq<u16>>, d: nat, i: nat, p: nat)
    requires Assigned(devs, handles) && IndexesExact(devs) && Distinct(handles)
    requires d < |devs| && i < |devs[d]| && Owns(devs[d], i, p)
    ensures p < |handles[d]|
    ensures FirstHolder(ServedAll(devs, handles), handles[d][p], d, i)
       <==> NoneStaleBefore(devs, d, i, handles[d][p])
  {
    PositionsInTable(devs[d], i);
    var h := handles[d][p];
    var served := ServedAll(devs, handles);
    WhoHolds(devs, handles, d, p, d, i);
    if NoneStaleBefore(devs, d, i, h) {
      forall e: nat, j: nat | e < |served| && j < |served[e]| && Earlier(e, j, d, i)
        ensures !Holds(served[e][j], h)
      {
        WhoHolds(devs, handles, d, p, e, j);
        assert !StaleHolder(devs[e][j], h);
        if e == d && Owns(devs[d], j, p) {
          OwnerUnique(devs[d], i, j, p);
        }
      }
    }
    if FirstHolder(served, h, d, i) {
      forall e: nat, j: nat | e < |devs| && j < |devs[e]| && Earlier(e, j, d, i)
        ensures !StaleHolder(devs[e][j], h)
      {
        WhoHolds(devs, handles, d, p, e, j);
        assert !Holds(served[e][j], h);
      }
    }
  }

  /** A handle of a record that belongs to no report, such as a declaration, finds none, when no report
      holds it by accident. */
  lemma LookupIgnoresOtherRecords(devs: seq<seq<Report>>, handles: seq<seq<u16>>, d: nat, p: nat)
    requires Assigned(devs, handles) && IndexesExact(devs) && Distinct(handles)
    requires d < |devs| && p < |handles[d]| && forall i :: 0 <= i < |devs[d]| ==> !Owns(devs[d], i, p)
    requires forall e, j :: 0 <= e < |devs| && 0 <= j < |devs[e]| ==> !StaleHolder(devs[e][j], handles[d][p])
    ensures NoHolder(ServedAll(devs, handles), handles[d][p])
  {
    forall e: nat, j: nat | e < |devs| && j < |devs[e]|
      ensures !Holds(ServedAll(devs, handles)[e][j], handles[d][p])
    {
      WhoHolds(devs, handles, d, p, e, j);
    }
  }

  lemma {:induction false} FourPerReport(rs: seq<Report>, n: nat)
    requires n <= |rs|
    ensures 2 * n <= LenUpTo(rs, n) <= 4 * n
    ensures (forall i :: 0 <= i < n ==> IsInput(rs[i]) && IsReportMode(rs[i])) ==> LenUpTo(rs, n) == 4 * n
  {
    if n > 0 {
      FourPerReport(rs, n - 1);
    }
  }

  /** Sixty-one reports always fit the eight-bit index; sixty-two report-protocol input reports do not,
      although a parsed map may hold sixty-four. */
  lemma SixtyOneReportsFit(rs: seq<Report>)
    ensures |rs| <= 61 ==> Offset(rs, |rs|) <= 0x100
    ensures |rs| >= 62 && (forall i :: 0 <= i < 61 ==> IsInput(rs[i]) && IsReportMode(rs[i]))
            ==> ValuePosition(rs, 61) == 0x100 && Indexed(rs, 61).index == 0
  {
    FourPerReport(rs, |rs|);
    if |rs| >= 62 {
      FourPerReport(rs, 61);
    }
  }
}
