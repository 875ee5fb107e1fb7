/** Where the declared bits go: every main item's bits are in exactly one group or in a dropped tail, and the
    lengths returned account for all bits of a group exactly while its sums fit in sixteen bits
    (esp_hid/src/esp_hid_common.c:82-190, 262-320). */
module HidBits {
  import opened HidTypes
  import opened ShortItems
  import opened HidReference
  import opened HidMachine
  import opened HidRefinement
  import opened HidLaws

  datatype Kind = In | Out | Feat

  function TagOf(k: Kind): u8 {
    match k case In => RM_INPUT case Out => RM_OUTPUT case Feat => RM_FEATURE
  }

  function TypeOf(k: Kind): u8 {
    match k case In => TYPE_INPUT case Out => TYPE_OUTPUT case Feat => TYPE_FEATURE
  }

  function BitsOf(g: Group, k: Kind): nat {
    match k case In => g.input case Out => g.output case Feat => g.feature
  }

  /** Keyboards carry Input and Output, mice Input, every other usage all three. */
  predicate Carries(g: Group, k: Kind) {
    match UsageClass(g.page, g.usage)
    case Keyboard => k != Feat
    case Mouse => k == In
    case _ => true
  }

  function GroupBits(gs: seq<Group>, k: Kind): nat {
    if gs == [] then 0 else GroupBits(gs[..|gs| - 1], k) + BitsOf(gs[|gs| - 1], k)
  }

  lemma {:induction false} GroupBitsAppend(a: seq<Group>, b: seq<Group>, k: Kind)
    ensures GroupBits(a + b, k) == GroupBits(a, k) + GroupBits(b, k)
    decreases |b|
  {
    if b == [] {
      assert a + b == a;
    } else {
      var n := |b| - 1;
      assert (a + b)[..|a + b| - 1] == a + b[..n];
      GroupBitsAppend(a, b[..n], k);
    }
  }

  lemma {:induction false} BitsSplit(b: seq<Item>, tag: u8, from: nat, mid: nat, to: nat)
    requires from <= mid <= to <= |b|
    ensures Bits(b, tag, from, to) == Bits(b, tag, from, mid) + Bits(b, tag, mid, to)
  {
    if mid < to {
      BitsSplit(b, tag, from, mid, to - 1);
    }
  }

  /** At every position of a body, the completed groups and the open one together hold all bits declared. */
  lemma {:induction false} EveryBitInOneGroup(b: seq<Item>, n: nat, page: u16, usage: u16, k: Kind)
    requires n <= |b|
    ensures var c := CutsUpTo(b, n, page, usage);
            GroupBits(c.groups, k) + Bits(b, TagOf(k), c.from, n) == Bits(b, TagOf(k), 0, n)
  {
    if n > 0 {
      EveryBitInOneGroup(b, n - 1, page, usage, k);
      var c := CutsUpTo(b, n - 1, page, usage);
      assert Bits(b, TagOf(k), c.from, n) == Bits(b, TagOf(k), c.from, n - 1)
             + if b[n - 1].tag == TagOf(k) then Times(SizeAt(b, n - 1), CountAt(b, n - 1)) else 0;
      if IsCut(b, c.from, n - 1) {
        GroupBitsAppend(c.groups, [GroupAt(b, c, n - 1)], k);
        assert GroupBits([GroupAt(b, c, n - 1)], k) == BitsOf(GroupAt(b, c, n - 1), k);
      }
    }
  }

  /** The bits of a closed collection that are in none of its groups: none, or all since the last cut. */
  lemma DroppedTail(a: Application, k: Kind)
    requires a.closed
    ensures var c := CutsUpTo(a.body, |a.body|, a.page, a.usage);
            var tail := if Whole(a.body, c.from, |a.body|) then 0 else Bits(a.body, TagOf(k), c.from, |a.body|);
            GroupBits(GroupsOf(a), k) + tail == Bits(a.body, TagOf(k), 0, |a.body|)
  {
    var c := CutsUpTo(a.body, |a.body|, a.page, a.usage);
    var g := GroupAt(a.body, c, |a.body|);
    EveryBitInOneGroup(a.body, |a.body|, a.page, a.usage, k);
    GroupBitsAppend(c.groups, [g], k);
    assert GroupBits([g], k) == BitsOf(g, k);
    assert c.groups + [] == c.groups;
  }

  // ---- from groups to the reports returned ----

  /** 8 times the lengths of the report-protocol items of one type. */
  function ReportBits(rs: seq<ReportItem>, t: u8): nat {
    if rs == [] then 0
    else ReportBits(rs[..|rs| - 1], t)
         + var r := rs[|rs| - 1]; if r.protocolMode == MODE_REPORT && r.reportType == t then 8 * r.valueLen else 0
  }

  lemma {:induction false} ReportBitsAppend(a: seq<ReportItem>, b: seq<ReportItem>, t: u8)
    ensures ReportBits(a + b, t) == ReportBits(a, t) + ReportBits(b, t)
    decreases |b|
  {
    if b == [] {
      assert a + b == a;
    } else {
      var n := |b| - 1;
      assert (a + b)[..|a + b| - 1] == a + b[..n];
      ReportBitsAppend(a, b[..n], t);
    }
  }

  lemma ItemsBits(g: Group, reportType: u8, bits: nat, twin: Option<u16>, t: u8)
    ensures ReportBits(Items(g, reportType, bits, twin), t)
         == if t == reportType then Low16(bits) / 8 * 8 else 0
  {
    var rs := Items(g, reportType, bits, twin);
    if Low16(bits) > 0 {
      var first := One(g, reportType, MODE_REPORT, Low16(bits) / 8);
      assert [first][..0] == [];
      assert ReportBits([first], t) == if t == reportType then Low16(bits) / 8 * 8 else 0;
      if twin.Some? {
        assert rs[..1] == [first];
      }
    }
  }

  /** A group lists the whole bytes of its wrapped sum, for each kind its usage carries, and no others. */
  lemma ExpandBits(g: Group, k: Kind)
    ensures ReportBits(Expand(g), TypeOf(k)) == if Carries(g, k) then Low16(BitsOf(g, k)) / 8 * 8 else 0
  {
    var t := TypeOf(k);
    match UsageClass(g.page, g.usage)
    case Keyboard =>
      ItemsBits(g, TYPE_INPUT, g.input, Some(8), t);
      ItemsBits(g, TYPE_OUTPUT, g.output, Some(1), t);
      ReportBitsAppend(Items(g, TYPE_INPUT, g.input, Some(8)), Items(g, TYPE_OUTPUT, g.output, Some(1)), t);
    case Mouse =>
      ItemsBits(g, TYPE_INPUT, g.input, Some(3), t);
    case _ =>
      var a, b := Items(g, TYPE_INPUT, g.input, None), Items(g, TYPE_OUTPUT, g.output, None);
      ItemsBits(g, TYPE_INPUT, g.input, None, t);
      ItemsBits(g, TYPE_OUTPUT, g.output, None, t);
      ItemsBits(g, TYPE_FEATURE, g.feature, None, t);
      ReportBitsAppend(a, b, t);
      ReportBitsAppend(a + b, Items(g, TYPE_FEATURE, g.feature, None), t);
  }

  /** The lengths listed for a whole-byte group are its bits exactly while the sum fits in sixteen bits:
      the wrapped test for whole bytes is always right, the wrapped length is not. */
  lemma GroupConserved(g: Group, k: Kind)
    requires Carries(g, k) && BitsOf(g, k) % 8 == 0
    ensures ReportBits(Expand(g), TypeOf(k)) == BitsOf(g, k) <==> BitsOf(g, k) < 0x1_0000
    ensures ReportBits(Expand(g), TypeOf(k)) <= BitsOf(g, k)
  {
    ExpandBits(g, k);
    WrapAdd16(BitsOf(g, k), 0);
    MultipleOfEight(Low16(BitsOf(g, k)));
  }

  lemma MultipleOfEight(n: nat)
    requires n % 8 == 0
    ensures n / 8 * 8 == n
  {
  }

  function CarriedBits(gs: seq<Group>, k: Kind): nat {
    if gs == [] then 0
    else CarriedBits(gs[..|gs| - 1], k) + if Carries(gs[|gs| - 1], k) then BitsOf(gs[|gs| - 1], k) else 0
  }

  predicate WholeGroup(g: Group) {
    g.input % 8 == 0 && g.output % 8 == 0 && g.feature % 8 == 0
  }

  predicate AllWhole(gs: seq<Group>) {
    forall i :: 0 <= i < |gs| ==> WholeGroup(gs[i])
  }

  lemma {:induction false} CutsAreWhole(b: seq<Item>, n: nat, page: u16, usage: u16)
    requires n <= |b|
    ensures AllWhole(CutsUpTo(b, n, page, usage).groups)
  {
    if n > 0 {
      CutsAreWhole(b, n - 1, page, usage);
    }
  }

  lemma {:induction false} GroupsAreWhole(apps: seq<Application>)
    ensures AllWhole(AllGroups(apps))
    decreases |apps|
  {
    if apps != [] {
      CutsAreWhole(apps[0].body, |apps[0].body|, apps[0].page, apps[0].usage);
      GroupsAreWhole(apps[1..]);
    }
  }

  /** Every sum a group's usage carries fits in sixteen bits. */
  predicate CarriedFit(gs: seq<Group>, k: Kind) {
    forall i :: 0 <= i < |gs| && Carries(gs[i], k) ==> BitsOf(gs[i], k) < 0x1_0000
  }

  lemma CarriedFitSnoc(gs: seq<Group>, k: Kind)
    requires gs != []
    ensures var n := |gs| - 1;
            CarriedFit(gs, k) <==> CarriedFit(gs[..n], k) && (Carries(gs[n], k) ==> BitsOf(gs[n], k) < 0x1_0000)
  {
    var n := |gs| - 1;
    assert forall i :: 0 <= i < n ==> gs[..n][i] == gs[i];
    if CarriedFit(gs[..n], k) {
      forall i | 0 <= i < n && Carries(gs[i], k)
        ensures BitsOf(gs[i], k) < 0x1_0000
      {
        assert gs[..n][i] == gs[i];
      }
    }
  }

  /** Whole-byte groups never list more bits than they declare, and list exactly as many when every carried sum
      fits. */
  lemma {:induction false} ListingConserved(gs: seq<Group>, k: Kind)
    requires AllWhole(gs)
    ensures var listed := ReportBits(AddAll(EMPTY, gs).reports, TypeOf(k));
            listed <= CarriedBits(gs, k) && (listed == CarriedBits(gs, k) <==> CarriedFit(gs, k))
    decreases |gs|
  {
    if gs != [] {
      hide AddAll, Expand, ReportBits, Carries, CarriedFit;
      var n := |gs| - 1;
      var g := gs[n];
      assert WholeGroup(g);
      ListingConserved(gs[..n], k);
      CarriedFitSnoc(gs, k);
      assert gs == gs[..n] + [g];
      AddAllOne(EMPTY, gs[..n], g);
      ReportBitsAppend(AddAll(EMPTY, gs[..n]).reports, Expand(g), TypeOf(k));
      ExpandBits(g, k);
      if Carries(g, k) {
        GroupConserved(g, k);
      }
    } else {
      assert CarriedFit(gs, k);
    }
  }

  /** For every descriptor that commits a group and parses: the report lengths returned are, kind by kind, exactly
      the bits declared in the groups that carry the kind, precisely when none of those sums reaches 65536. */
  lemma BitsAreConserved(m: Machine, data: seq<u8>, k: Kind)
    requires m.step == WaitUsagePage && DescriptorGroups(data) != [] && Parse(m, data).outcome.Parsed?
    ensures ReportBits(Parse(m, data).outcome.map_.reports, TypeOf(k)) == CarriedBits(DescriptorGroups(data), k)
       <==> CarriedFit(DescriptorGroups(data), k)
  {
    NeverTruncated(m, data);
    GroupsAreWhole(Split(Tokenise(data).items).applications);
    ListingConserved(DescriptorGroups(data), k);
  }
}
