/** Joining the parsed report maps onto the linked list of discovered report characteristics
    (esp_hid/src/nimble_hidh.c:515-549; esp_hid/include/esp_private/esp_hidh_private.h:23-35). */
module ReportJoin {
  import opened HidTypes

  /** esp_hidh_dev_report_t */
  class Node {
    var next: Node?
    var mapIndex: u8
    var reportId: u8
    var reportType: u8
    var protocolMode: u8
    var valueLen: nat
    var usage: Usage
    var handle: u16
    var cccHandle: u16
    var permissions: u8

    ghost function View(): Fields
      reads this
    {
      Fields(reportId, usage, valueLen)
    }
  }

  /** What the join may overwrite. */
  datatype Fields = Fields(reportId: u8, usage: Usage, valueLen: nat)

  // ---- specification ----

  /** A boot item is matched by usage and gives its ID; any item of the node's own protocol is matched by ID
      and gives its usage. */
  function JoinItem(mode: u8, reportType: u8, f: Fields, r: ReportItem): Fields {
    if mode == MODE_BOOT && mode == r.protocolMode && reportType == r.reportType && f.usage == r.usage then
      f.(reportId := r.reportId, valueLen := r.valueLen)
    else if mode == r.protocolMode && reportType == r.reportType && f.reportId == r.reportId then
      f.(usage := r.usage, valueLen := r.valueLen)
    else f
  }

  function JoinItems(mode: u8, reportType: u8, f: Fields, rs: seq<ReportItem>, n: nat): Fields
    requires n <= |rs|
  {
    if n == 0 then f else JoinItem(mode, reportType, JoinItems(mode, reportType, f, rs, n - 1), rs[n - 1])
  }

  /** Maps are joined in order; None is a map that is empty or does not parse. */
  function JoinMaps(mode: u8, reportType: u8, mapIndex: u8, f: Fields, maps: seq<Option<ReportMap>>, n: nat): Fields
    requires n <= |maps|
  {
    if n == 0 then f
    else
      var g := JoinMaps(mode, reportType, mapIndex, f, maps, n - 1);
      if mapIndex as int == n - 1 && maps[n - 1].Some?
      then JoinItems(mode, reportType, g, maps[n - 1].value.reports, |maps[n - 1].value.reports|)
      else g
  }

  function AppearanceAfter(appearance: u16, maps: seq<Option<ReportMap>>, n: nat): u16
    requires n <= |maps|
  {
    if n == 0 then appearance
    else
      var a := AppearanceAfter(appearance, maps, n - 1);
      if a == 0 && maps[n - 1].Some? then maps[n - 1].value.appearance else a
  }

  // ---- the list ----

  /** The k-th of some nodes, null past the last. */
  function NodeAt(nodes: seq<Node>, k: nat): Node? {
    if k < |nodes| then nodes[k] else null
  }

  /** `nodes` are the nodes reached from `head`, in order. */
  predicate Spine(head: Node?, nodes: seq<Node>)
    reads nodes
  {
    && head == NodeAt(nodes, 0)
    && (forall k :: 0 <= k < |nodes| ==> nodes[k].next == NodeAt(nodes, k + 1))
  }

  /** A null-terminated list visits no node twice. */
  lemma {:induction false} SpineDistinct(head: Node?, nodes: seq<Node>, i: nat, j: nat)
    requires Spine(head, nodes) && i < j < |nodes|
    ensures nodes[i] != nodes[j]
    decreases |nodes| - j
  {
    assert nodes[i].next == NodeAt(nodes, i + 1);
    assert nodes[j].next == NodeAt(nodes, j + 1);
    if j + 1 < |nodes| {
      SpineDistinct(head, nodes, i + 1, j + 1);
    }
  }

  method JoinNode(report: Node, rs: seq<ReportItem>)
    modifies report`reportId, report`usage, report`valueLen
    ensures report.View() == JoinItems(report.protocolMode, report.reportType, old(report.View()), rs, |rs|)
  {
    for i := 0 to |rs|
      invariant report.View() == JoinItems(report.protocolMode, report.reportType, old(report.View()), rs, i)
    {
      var r := rs[i];
      if report.protocolMode == MODE_BOOT && report.protocolMode == r.protocolMode
         && report.reportType == r.reportType && report.usage == r.usage {
        report.reportId := r.reportId;
        report.valueLen := r.valueLen;
      } else if report.protocolMode == r.protocolMode && report.reportType == r.reportType
                && report.reportId == r.reportId {
        report.usage := r.usage;
        report.valueLen := r.valueLen;
      }
    }
  }

  ghost predicate JoinedOne(n: Node, before: Fields, d: nat, rs: seq<ReportItem>)
    reads n
  {
    n.View() == if n.mapIndex as int == d then JoinItems(n.protocolMode, n.reportType, before, rs, |rs|) else before
  }

  /** One walk over the list, for map d. */
  method JoinList(head: Node?, ghost nodes: seq<Node>, d: nat, rs: seq<ReportItem>)
    requires Spine(head, nodes)
    modifies (set n | n in nodes)`reportId, (set n | n in nodes)`usage, (set n | n in nodes)`valueLen
    ensures forall k :: 0 <= k < |nodes| ==> JoinedOne(nodes[k], old(nodes[k].View()), d, rs)
  {
    var report := head;
    ghost var k := 0;
    while report != null
      invariant k <= |nodes| && report == NodeAt(nodes, k)
      invariant forall i :: 0 <= i < k ==> JoinedOne(nodes[i], old(nodes[i].View()), d, rs)
      invariant forall i :: k <= i < |nodes| ==> nodes[i].View() == old(nodes[i].View())
      decreases |nodes| - k
    {
      forall i, j | 0 <= i < j < |nodes|
        ensures nodes[i] != nodes[j]
      {
        SpineDistinct(head, nodes, i, j);
      }
      if report.mapIndex as int == d {
        JoinNode(report, rs);
      }
      report := report.next;
      k := k + 1;
    }
  }

  /** Join every parsed map in turn, unless no report was discovered; the device takes a map's appearance while it has
      none. Nothing but the three fields of Fields is written: the frame says so. */
  method JoinReports(head: Node?, ghost nodes: seq<Node>, maps: seq<Option<ReportMap>>, appearance: u16)
    returns (a: u16)
    requires Spine(head, nodes)
    modifies (set n | n in nodes)`reportId, (set n | n in nodes)`usage, (set n | n in nodes)`valueLen
    ensures forall k :: 0 <= k < |nodes| ==>
              var n := nodes[k];
              n.View() == JoinMaps(n.protocolMode, n.reportType, n.mapIndex, old(nodes[k].View()), maps, |maps|)
    ensures a == if head == null then appearance else AppearanceAfter(appearance, maps, |maps|)
  {
    a := appearance;
    if head == null {
      return;
    }
    for d := 0 to |maps|
      invariant a == AppearanceAfter(appearance, maps, d)
      invariant forall k :: 0 <= k < |nodes| ==>
                  var n := nodes[k];
                  n.View() == JoinMaps(n.protocolMode, n.reportType, n.mapIndex, old(nodes[k].View()), maps, d)
    {
      if maps[d].Some? {
        if a == 0 {
          a := maps[d].value.appearance;
        }
        JoinList(head, nodes, d, maps[d].value.reports);
      }
    }
  }

  // ---- what the join means ----

  /** The appearance of a map, 0 for one that is empty or does not parse. */
  function Offered(map_: Option<ReportMap>): u16 {
    match map_ case None => 0 case Some(m) => m.appearance
  }

  /** A device that has an appearance keeps it; another takes the first that is offered and is not 0, if any. */
  lemma {:induction false} FirstAppearanceWins(appearance: u16, maps: seq<Option<ReportMap>>, n: nat)
    requires n <= |maps|
    ensures var a := AppearanceAfter(appearance, maps, n);
            if appearance != 0 then a == appearance
            else if a == 0 then forall i :: 0 <= i < n ==> Offered(maps[i]) == 0
            else exists i :: 0 <= i < n && Offered(maps[i]) == a && forall j :: 0 <= j < i ==> Offered(maps[j]) == 0
  {
    if n > 0 {
      FirstAppearanceWins(appearance, maps, n - 1);
    }
  }

  lemma {:induction false} OtherMapsIgnored(
    mode: u8, reportType: u8, mapIndex: u8, f: Fields, maps: seq<Option<ReportMap>>, n: nat)
    requires n <= |maps|
    ensures JoinMaps(mode, reportType, mapIndex, f, maps, n)
         == if mapIndex as int < n && maps[mapIndex].Some?
            then JoinItems(mode, reportType, f, maps[mapIndex].value.reports, |maps[mapIndex].value.reports|)
            else f
  {
    if n > 0 {
      OtherMapsIgnored(mode, reportType, mapIndex, f, maps, n - 1);
    }
  }

  predicate Matches(r: ReportItem, mode: u8, reportType: u8, id: u8) {
    r.protocolMode == mode && r.reportType == reportType && r.reportId == id
  }

  /** The last item among the first n that matches, None when there is none. */
  function LastMatch(rs: seq<ReportItem>, n: nat, mode: u8, reportType: u8, id: u8): Option<ReportItem>
    requires n <= |rs|
  {
    if n == 0 then None
    else if Matches(rs[n - 1], mode, reportType, id) then Some(rs[n - 1])
    else LastMatch(rs, n - 1, mode, reportType, id)
  }

  lemma {:induction false} LastMatchWins(mode: u8, reportType: u8, f: Fields, rs: seq<ReportItem>, n: nat)
    requires n <= |rs| && mode != MODE_BOOT
    ensures JoinItems(mode, reportType, f, rs, n)
         == match LastMatch(rs, n, mode, reportType, f.reportId)
            case Some(r) => Fields(f.reportId, r.usage, r.valueLen)
            case None => f
  {
    if n > 0 {
      LastMatchWins(mode, reportType, f, rs, n - 1);
    }
  }

  /** A report-protocol node ends with its own ID, and with the usage and length of the last item of its own
      map that has its protocol, type and ID; without such an item, or such a map, it keeps its old values.
      Maps of other indexes do not interfere. */
  lemma ReportNodeGetsLastMatch(mode: u8, reportType: u8, mapIndex: u8, f: Fields, maps: seq<Option<ReportMap>>)
    requires mode != MODE_BOOT
    ensures var g := JoinMaps(mode, reportType, mapIndex, f, maps, |maps|);
            if mapIndex as int < |maps| && maps[mapIndex].Some? then
              var rs := maps[mapIndex].value.reports;
              match LastMatch(rs, |rs|, mode, reportType, f.reportId)
              case Some(r) => g == Fields(f.reportId, r.usage, r.valueLen)
              case None => g == f
            else g == f
  {
    OtherMapsIgnored(mode, reportType, mapIndex, f, maps, |maps|);
    if mapIndex as int < |maps| && maps[mapIndex].Some? {
      var rs := maps[mapIndex].value.reports;
      LastMatchWins(mode, reportType, f, rs, |rs|);
    }
  }

  // ---- boot-protocol nodes ----

  predicate SameBoot(r: ReportItem, reportType: u8, usage: Usage) {
    r.protocolMode == MODE_BOOT && r.reportType == reportType && r.usage == usage
  }

  /** ID and length of the last boot item of the node's type and usage, or the node's own. */
  function LastBoot(reportType: u8, f: Fields, rs: seq<ReportItem>, n: nat): Fields
    requires n <= |rs|
  {
    if n == 0 then f
    else if SameBoot(rs[n - 1], reportType, f.usage) then Fields(rs[n - 1].reportId, f.usage, rs[n - 1].valueLen)
    else LastBoot(reportType, f, rs, n - 1)
  }

  /** Item k is a boot item of another usage that carries the ID the node has by then. */
  predicate Clash(reportType: u8, f: Fields, rs: seq<ReportItem>, k: nat)
    requires k < |rs|
  {
    && rs[k].protocolMode == MODE_BOOT && rs[k].reportType == reportType && rs[k].usage != f.usage
    && rs[k].reportId == LastBoot(reportType, f, rs, k).reportId
  }

  predicate NoClash(reportType: u8, f: Fields, rs: seq<ReportItem>, n: nat)
    requires n <= |rs|
  {
    forall k :: 0 <= k < n ==> !Clash(reportType, f, rs, k)
  }

  predicate KeepsUsage(reportType: u8, f: Fields, rs: seq<ReportItem>, n: nat)
    requires n <= |rs|
  {
    forall m :: 0 <= m <= n ==> JoinItems(MODE_BOOT, reportType, f, rs, m).usage == f.usage
  }

  /** A boot-protocol node keeps its usage throughout the walk exactly when no boot item of another usage
      carries its ID, and then takes the ID and length of the last boot item of its usage. */
  lemma {:induction false} BootNodeKeepsUsage(reportType: u8, f: Fields, rs: seq<ReportItem>, n: nat)
    requires n <= |rs|
    ensures KeepsUsage(reportType, f, rs, n) <==> NoClash(reportType, f, rs, n)
    ensures NoClash(reportType, f, rs, n) ==>
              JoinItems(MODE_BOOT, reportType, f, rs, n) == LastBoot(reportType, f, rs, n)
  {
    if n > 0 {
      BootNodeKeepsUsage(reportType, f, rs, n - 1);
      if NoClash(reportType, f, rs, n - 1) {
        BootStep(reportType, f, rs, n);
        assert KeepsUsage(reportType, f, rs, n)
          <==> JoinItems(MODE_BOOT, reportType, f, rs, n).usage == f.usage;
      } else {
        assert !KeepsUsage(reportType, f, rs, n - 1);
      }
    }
  }

  lemma BootStep(reportType: u8, f: Fields, rs: seq<ReportItem>, n: nat)
    requires 0 < n <= |rs|
    requires JoinItems(MODE_BOOT, reportType, f, rs, n - 1) == LastBoot(reportType, f, rs, n - 1)
    ensures var g := JoinItems(MODE_BOOT, reportType, f, rs, n);
            && (g.usage == f.usage <==> !Clash(reportType, f, rs, n - 1))
            && (!Clash(reportType, f, rs, n - 1) ==> g == LastBoot(reportType, f, rs, n))
  {
    LastBootUsage(reportType, f, rs, n - 1);
  }

  lemma {:induction false} LastBootUsage(reportType: u8, f: Fields, rs: seq<ReportItem>, n: nat)
    requires n <= |rs|
    ensures LastBoot(reportType, f, rs, n).usage == f.usage
  {
    if n > 0 {
      LastBootUsage(reportType, f, rs, n - 1);
    }
  }

  const MOUSE: seq<ReportItem> :=
    [ReportItem(0, 0, TYPE_INPUT, MODE_REPORT, Mouse, 4), ReportItem(0, 0, TYPE_INPUT, MODE_BOOT, Mouse, 3)]

  /** A map for a mouse without Report IDs retags a boot keyboard input node as a mouse. */
  lemma BootKeyboardRetagged()
    ensures JoinItems(MODE_BOOT, TYPE_INPUT, Fields(0, Keyboard, 8), MOUSE, 2) == Fields(0, Mouse, 3)
  {
    var f := Fields(0, Keyboard, 8);
    assert JoinItems(MODE_BOOT, TYPE_INPUT, f, MOUSE, 1) == f;
  }
}
