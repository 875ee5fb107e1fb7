/** A declarative, two-phase reading of a report descriptor, in which nothing is updated step by step:
    first the items are split into application collections, then the size, count, Report ID and usage
    in force at each item are looked up backwards, main items are summed between Report ID changes, and
    each group of bits is expanded into report items (HID 1.11 sections 6.2.2.4 to 6.2.2.8). */
module HidReference {
  import opened HidTypes
  import opened ShortItems

  const MAX_REPORTS: nat := 64

  /** A group of main items between two cuts; lengths are unbounded sums of bits. */
  datatype Group = Group(page: u16, usage: u16, id: u8, input: nat, output: nat, feature: nat)

  function Low8(n: int): u8 { n % 0x100 }

  function Low16(n: int): u16 { n % 0x1_0000 }

  // ---- what is in force at position k of a collection body ----

  /** The value of the last item tagged `tag` before position k, 0 when there is none. */
  function LastValue(b: seq<Item>, tag: u8, k: nat): u32
    requires k <= |b|
  {
    if k == 0 then 0
    else if b[k - 1].tag == tag then b[k - 1].Value()
    else LastValue(b, tag, k - 1)
  }

  function SizeAt(b: seq<Item>, k: nat): u16
    requires k <= |b|
  {
    Low16(LastValue(b, RM_REPORT_SIZE, k))
  }

  function CountAt(b: seq<Item>, k: nat): u16
    requires k <= |b|
  {
    Low16(LastValue(b, RM_REPORT_COUNT, k))
  }

  function IdAt(b: seq<Item>, k: nat): u8
    requires k <= |b|
  {
    Low8(LastValue(b, RM_REPORT_ID, k))
  }

  function PageAt(b: seq<Item>, k: nat): u16
    requires k <= |b|
  {
    Low16(LastValue(b, RM_USAGE_PAGE, k))
  }

  function UsageAt(b: seq<Item>, k: nat): u16
    requires k <= |b|
  {
    Low16(LastValue(b, RM_USAGE, k))
  }

  function Times(size: u16, count: u16): nat { size * count }

  /** The bits declared by the main items tagged `tag` at positions from..k. */
  function Bits(b: seq<Item>, tag: u8, from: nat, k: nat): nat
    requires from <= k <= |b|
  {
    if k == from then 0
    else Bits(b, tag, from, k - 1)
         + if b[k - 1].tag == tag then Times(SizeAt(b, k - 1), CountAt(b, k - 1)) else 0
  }

  predicate Whole(b: seq<Item>, from: nat, k: nat)
    requires from <= k <= |b|
  {
    && Bits(b, RM_INPUT, from, k) % 8 == 0
    && Bits(b, RM_OUTPUT, from, k) % 8 == 0
    && Bits(b, RM_FEATURE, from, k) % 8 == 0
  }

  // ---- cutting a body into groups ----

  /** The groups completed so far, where the open group starts, and its usage. */
  datatype Cuts = Cuts(groups: seq<Group>, from: nat, page: u16, usage: u16)

  /** Item k is a Report ID that ends the group opened at `from`: an ID is in force, it differs,
      and all three sums are whole bytes. */
  predicate IsCut(b: seq<Item>, from: nat, k: nat)
    requires from <= k < |b|
  {
    && b[k].tag == RM_REPORT_ID
    && IdAt(b, k) != 0
    && IdAt(b, k) != b[k].Value()
    && Whole(b, from, k)
  }

  function GroupAt(b: seq<Item>, c: Cuts, k: nat): Group
    requires c.from <= k <= |b|
  {
    Group(c.page, c.usage, IdAt(b, k),
          Bits(b, RM_INPUT, c.from, k), Bits(b, RM_OUTPUT, c.from, k), Bits(b, RM_FEATURE, c.from, k))
  }

  function CutsUpTo(b: seq<Item>, k: nat, page: u16, usage: u16): (c: Cuts)
    requires k <= |b|
    ensures c.from <= k
  {
    if k == 0 then Cuts([], 0, page, usage)
    else
      var c := CutsUpTo(b, k - 1, page, usage);
      if IsCut(b, c.from, k - 1)
      then Cuts(c.groups + [GroupAt(b, c, k - 1)], k, PageAt(b, k - 1), UsageAt(b, k - 1))
      else c
  }

  // ---- splitting the items into application collections ----

  /** Collections open before item k, counting the application collection itself. */
  function Balance(b: seq<Item>, k: nat): int
    requires k <= |b|
  {
    if k == 0 then 1
    else Balance(b, k - 1)
         + if b[k - 1].tag == RM_COLLECTION then 1 else if b[k - 1].tag == RM_END_COLLECTION then -1 else 0
  }

  /** The depth counter is eight bits wide, so an End Collection closes the application collection
      whenever it brings the balance to a multiple of 256. */
  predicate ClosesAt(b: seq<Item>, k: nat)
    requires k < |b|
  {
    b[k].tag == RM_END_COLLECTION && Balance(b, k + 1) % 0x100 == 0
  }

  /** The first closing item at or after k, |b| when there is none. */
  function CloseFrom(b: seq<Item>, k: nat): (c: nat)
    requires k <= |b|
    ensures k <= c <= |b|
    ensures c < |b| ==> ClosesAt(b, c)
    ensures forall j :: k <= j < c ==> !ClosesAt(b, j)
    decreases |b| - k
  {
    if k == |b| || ClosesAt(b, k) then k else CloseFrom(b, k + 1)
  }

  datatype Application = Application(page: u16, usage: u16, body: seq<Item>, closed: bool)

  /** How the items end: between collections, inside a header or collection, or at a wrong header item. */
  datatype Ending = Between | Inside | Malformed

  datatype Layout = Layout(applications: seq<Application>, ending: Ending)

  function Split(items: seq<Item>): Layout
    decreases |items|
  {
    if items == [] then Layout([], Between)
    else if items[0].tag != RM_USAGE_PAGE then Layout([], Malformed)
    else if |items| == 1 then Layout([], Inside)
    else if items[1].tag != RM_USAGE then Layout([], Malformed)
    else if |items| == 2 then Layout([], Inside)
    else if items[2].tag != RM_COLLECTION || items[2].Value() != 1 then Layout([], Malformed)
    else
      var page, usage, rest := Low16(items[0].Value()), Low16(items[1].Value()), items[3..];
      var c := CloseFrom(rest, 0);
      if c == |rest| then Layout([Application(page, usage, rest, false)], Inside)
      else
        var l := Split(rest[c + 1..]);
        Layout([Application(page, usage, rest[..c], true)] + l.applications, l.ending)
  }

  /** The groups of one application collection; the last is kept only when the collection is closed
      and its sums are whole bytes. */
  function GroupsOf(a: Application): seq<Group> {
    var c := CutsUpTo(a.body, |a.body|, a.page, a.usage);
    c.groups + if a.closed && Whole(a.body, c.from, |a.body|) then [GroupAt(a.body, c, |a.body|)] else []
  }

  function AllGroups(apps: seq<Application>): seq<Group> {
    if apps == [] then [] else GroupsOf(apps[0]) + AllGroups(apps[1..])
  }

  // ---- expanding groups into report items ----

  function UsageClass(page: u16, usage: u16): Usage {
    if page == PAGE_GENERIC_DESKTOP then
      if usage == USAGE_KEYBOARD then Keyboard
      else if usage == USAGE_MOUSE then Mouse
      else if usage == USAGE_JOYSTICK then Joystick
      else if usage == USAGE_GAMEPAD then Gamepad
      else Generic
    else if page == PAGE_CONSUMER_DEVICE && usage == USAGE_CONSUMER_CONTROL then ConsumerControl
    else if page >= 0xFF then Vendor
    else Generic
  }

  function MaskOf(g: Group): set<Usage> {
    var class_ := UsageClass(g.page, g.usage);
    if class_ == Generic then {} else {class_}
  }

  function One(g: Group, reportType: u8, mode: u8, len: u16): ReportItem {
    ReportItem(0, g.id, reportType, mode, UsageClass(g.page, g.usage), len)
  }

  /** The report-protocol item of one kind, followed by its boot-protocol twin where there is one. */
  function Items(g: Group, reportType: u8, bits: nat, twin: Option<u16>): seq<ReportItem> {
    var len := Low16(bits);
    if len == 0 then []
    else [One(g, reportType, MODE_REPORT, len / 8)]
         + match twin case None => [] case Some(n) => [One(g, reportType, MODE_BOOT, n)]
  }

  /** Keyboards carry no Feature items; mice carry Input items only. */
  function Expand(g: Group): seq<ReportItem> {
    match UsageClass(g.page, g.usage)
    case Keyboard => Items(g, TYPE_INPUT, g.input, Some(8)) + Items(g, TYPE_OUTPUT, g.output, Some(1))
    case Mouse => Items(g, TYPE_INPUT, g.input, Some(3))
    case _ => Items(g, TYPE_INPUT, g.input, None)
              + Items(g, TYPE_OUTPUT, g.output, None)
              + Items(g, TYPE_FEATURE, g.feature, None)
  }

  /** The usages and report items collected from some groups. */
  datatype Listing = Listing(mask: set<Usage>, reports: seq<ReportItem>)

  const EMPTY := Listing({}, [])

  function Add(l: Listing, g: Group): Listing {
    Listing(l.mask + MaskOf(g), l.reports + Expand(g))
  }

  function AddAll(l: Listing, gs: seq<Group>): Listing
    decreases |gs|
  {
    if gs == [] then l else AddAll(Add(l, gs[0]), gs[1..])
  }

  /** The listing after the first group that takes it over 64 items, or after all groups when none does. */
  function UpToOverflow(l: Listing, gs: seq<Group>): Listing
    decreases |gs|
  {
    if gs == [] || |l.reports| > MAX_REPORTS then l else UpToOverflow(Add(l, gs[0]), gs[1..])
  }

  /** Keyboard > mouse > joystick > gamepad > consumer control > everything else. */
  function Dominant(mask: set<Usage>): Usage {
    if Keyboard in mask then Keyboard
    else if Mouse in mask then Mouse
    else if Joystick in mask then Joystick
    else if Gamepad in mask then Gamepad
    else if ConsumerControl in mask then ConsumerControl
    else Generic
  }

  function AppearanceOf(u: Usage): u16 {
    match u
    case Keyboard => APPEARANCE_KEYBOARD
    case ConsumerControl => APPEARANCE_KEYBOARD
    case Mouse => APPEARANCE_MOUSE
    case Joystick => APPEARANCE_JOYSTICK
    case Gamepad => APPEARANCE_GAMEPAD
    case _ => APPEARANCE_GENERIC
  }

  function Present(l: Listing): ReportMap {
    var u := Dominant(l.mask);
    ReportMap(u, AppearanceOf(u), l.reports)
  }

  // ---- the whole descriptor ----

  function DescriptorGroups(data: seq<u8>): seq<Group> {
    AllGroups(Split(Tokenise(data).items).applications)
  }

  /** The three ways a descriptor is refused: a truncated item, a wrong header item, too many reports. */
  predicate Refused(data: seq<u8>) {
    || !Tokenise(data).complete
    || Split(Tokenise(data).items).ending == Malformed
    || |AddAll(EMPTY, DescriptorGroups(data)).reports| > MAX_REPORTS
  }

  /** The result of a call that finds `stale` left over by earlier calls. */
  function ResultWith(stale: Option<Listing>, data: seq<u8>): Outcome {
    if Refused(data) then Rejected
    else if DescriptorGroups(data) != [] then Parsed(Present(AddAll(EMPTY, DescriptorGroups(data))))
    else match stale case None => NullMap case Some(l) => Parsed(Present(l))
  }
}
