/** Under which Report ID bits are listed. A group is cut at a Report ID change only when it is whole bytes; otherwise
    its bits are carried into the next ID (esp_hid/src/esp_hid_common.c:262-301; HID 1.11 section 6.2.2.7). */
module HidIds {
  import opened HidTypes
  import opened ShortItems
  import opened HidReference
  import opened HidMachine
  import opened HidRefinement
  import opened HidLaws
  import opened HidBits

  predicate IsMain(it: Item) {
    it.tag == RM_INPUT || it.tag == RM_OUTPUT || it.tag == RM_FEATURE
  }

  /** Where the group open at position n starts. */
  function OpenFrom(b: seq<Item>, n: nat): (f: nat)
    requires n <= |b|
    ensures f <= n
  {
    CutsUpTo(b, n, 0, 0).from
  }

  /** Where cuts fall does not depend on the usage the collection starts with. */
  lemma {:induction false} FromIsOpenFrom(b: seq<Item>, n: nat, page: u16, usage: u16)
    requires n <= |b|
    ensures CutsUpTo(b, n, page, usage).from == OpenFrom(b, n)
  {
    if n > 0 {
      FromIsOpenFrom(b, n - 1, page, usage);
      hide IsCut;
    }
  }

  /** Item k replaces the Report ID in force by another one without cutting the open group. */
  predicate ChangesUncut(b: seq<Item>, k: nat)
    requires k < |b|
  {
    b[k].tag == RM_REPORT_ID && IdAt(b, k) != Low8(b[k].Value()) && !IsCut(b, OpenFrom(b, k), k)
  }

  lemma OpenStep(b: seq<Item>, n: nat)
    requires n < |b|
    ensures OpenFrom(b, n + 1) == if IsCut(b, OpenFrom(b, n), n) then n + 1 else OpenFrom(b, n)
    ensures b[n].tag == RM_REPORT_ID ==> IdAt(b, n + 1) == Low8(b[n].Value())
    ensures b[n].tag != RM_REPORT_ID ==> IdAt(b, n + 1) == IdAt(b, n) && !IsCut(b, OpenFrom(b, n), n)
  {
  }

  lemma ChangesStep(b: seq<Item>, n: nat)
    requires n < |b|
    ensures IdAt(b, n + 1) == IdAt(b, n) || IsCut(b, OpenFrom(b, n), n) || ChangesUncut(b, n)
    ensures ChangesUncut(b, n) ==> IdAt(b, n + 1) != IdAt(b, n) && OpenFrom(b, n + 1) == OpenFrom(b, n) && !IsMain(b[n])
  {
    OpenStep(b, n);
    hide IsCut, OpenFrom, IdAt;
  }

  // ---- item by item ----

  /** Every main item in the group open at m was declared under the Report ID in force at m, the one the group is listed
      under when it is cut or closed there. */
  predicate UnderOwnId(b: seq<Item>, m: nat)
    requires m <= |b|
  {
    forall q :: OpenFrom(b, m) <= q < m && IsMain(b[q]) ==> IdAt(b, q) == IdAt(b, m)
  }

  /** Item k carries a main item over into another Report ID. */
  predicate CarriesItem(b: seq<Item>, k: nat)
    requires k < |b|
  {
    ChangesUncut(b, k) && exists q :: OpenFrom(b, k) <= q < k && IsMain(b[q])
  }

  predicate NoItemCarried(b: seq<Item>, n: nat)
    requires n <= |b|
  {
    forall k :: 0 <= k < n ==> !CarriesItem(b, k)
  }

  predicate AlwaysUnderOwnId(b: seq<Item>, n: nat)
    requires n <= |b|
  {
    forall m :: 0 <= m <= n ==> UnderOwnId(b, m)
  }

  lemma OwnIdKept(b: seq<Item>, n: nat)
    requires n < |b| && UnderOwnId(b, n) && !CarriesItem(b, n)
    ensures UnderOwnId(b, n + 1)
  {
    OpenStep(b, n);
    ChangesStep(b, n);
    hide IsCut, OpenFrom, IdAt, ChangesUncut;
    forall q | OpenFrom(b, n + 1) <= q < n + 1 && IsMain(b[q])
      ensures IdAt(b, q) == IdAt(b, n + 1)
    {
    }
  }

  lemma OwnIdLost(b: seq<Item>, n: nat)
    requires n < |b| && UnderOwnId(b, n) && CarriesItem(b, n)
    ensures !UnderOwnId(b, n + 1)
  {
    ChangesStep(b, n);
    hide IsCut, OpenFrom, IdAt, ChangesUncut;
    var q :| OpenFrom(b, n) <= q < n && IsMain(b[q]);
    assert IdAt(b, q) == IdAt(b, n);
  }

  /** The exact condition: throughout a body every main item stays under the Report ID it was declared with, exactly
      when no Report ID item changes the ID, fails to cut, and finds a main item in the open group. That includes
      main items before the first Report ID. */
  lemma {:induction false} OwnIdIffNothingCarried(b: seq<Item>, n: nat)
    requires n <= |b|
    ensures AlwaysUnderOwnId(b, n) <==> NoItemCarried(b, n)
  {
    hide UnderOwnId, CarriesItem;
    if n == 0 {
      NothingOpen(b);
    } else {
      OwnIdIffNothingCarried(b, n - 1);
      if AlwaysUnderOwnId(b, n - 1) {
        if CarriesItem(b, n - 1) {
          OwnIdLost(b, n - 1);
        } else {
          OwnIdKept(b, n - 1);
        }
      }
    }
  }

  lemma NothingOpen(b: seq<Item>)
    ensures UnderOwnId(b, 0)
  {
  }

  // ---- neighbouring groups ----

  /** Every Report ID item gives an ID from 1 to 255, as HID 1.11 asks. */
  predicate PlainIds(b: seq<Item>) {
    forall k :: 0 <= k < |b| && b[k].tag == RM_REPORT_ID ==> 0 < b[k].Value() < 0x100
  }

  lemma {:induction false} NoMainNoBits(b: seq<Item>, tag: u8, from: nat, k: nat)
    requires from <= k <= |b| && (tag == RM_INPUT || tag == RM_OUTPUT || tag == RM_FEATURE)
    requires forall q :: from <= q < k ==> !IsMain(b[q])
    ensures Bits(b, tag, from, k) == 0
  {
    if from < k {
      NoMainNoBits(b, tag, from, k - 1);
    }
  }

  /** A change of a nonzero ID that carries no main item over cuts. */
  lemma ChangeCuts(b: seq<Item>, k: nat)
    requires k < |b| && PlainIds(b) && b[k].tag == RM_REPORT_ID && !CarriesItem(b, k)
    requires IdAt(b, k) != 0 && IdAt(b, k) != b[k].Value()
    ensures IsCut(b, OpenFrom(b, k), k)
  {
    var f := OpenFrom(b, k);
    assert Low8(b[k].Value()) == b[k].Value();
    if !IsCut(b, f, k) {
      assert ChangesUncut(b, k);
      WholeWithoutMain(b, f, k);
    }
  }

  lemma WholeWithoutMain(b: seq<Item>, from: nat, k: nat)
    requires from <= k <= |b| && forall q :: from <= q < k ==> !IsMain(b[q])
    ensures Whole(b, from, k)
  {
    NoMainNoBits(b, RM_INPUT, from, k);
    NoMainNoBits(b, RM_OUTPUT, from, k);
    NoMainNoBits(b, RM_FEATURE, from, k);
  }

  predicate NeighboursDiffer(gs: seq<Group>) {
    forall j :: 0 <= j < |gs| - 1 ==> gs[j].id != gs[j + 1].id
  }

  /** The groups so far differ from neighbour to neighbour, and the last from the ID in force, which is not 0. */
  predicate Apart(gs: seq<Group>, id: u8) {
    NeighboursDiffer(gs) && (gs != [] ==> gs[|gs| - 1].id != id && id != 0)
  }

  lemma ApartSnoc(gs: seq<Group>, g: Group, id: u8)
    requires Apart(gs, g.id) && id != g.id && id != 0
    ensures Apart(gs + [g], id)
  {
  }

  lemma ApartStep(b: seq<Item>, n: nat, page: u16, usage: u16)
    requires n < |b| && PlainIds(b) && !CarriesItem(b, n)
    requires Apart(CutsUpTo(b, n, page, usage).groups, IdAt(b, n))
    ensures Apart(CutsUpTo(b, n + 1, page, usage).groups, IdAt(b, n + 1))
  {
    var c := CutsUpTo(b, n, page, usage);
    FromIsOpenFrom(b, n, page, usage);
    OpenStep(b, n);
    if b[n].tag == RM_REPORT_ID {
      assert Low8(b[n].Value()) == b[n].Value();
      if IsCut(b, c.from, n) {
        ApartSnoc(c.groups, GroupAt(b, c, n), IdAt(b, n + 1));
      } else if IdAt(b, n) != 0 && IdAt(b, n) != b[n].Value() {
        ChangeCuts(b, n);
        assert false;
      }
    }
  }

  lemma {:induction false} ApartRun(b: seq<Item>, n: nat, page: u16, usage: u16)
    requires n <= |b| && PlainIds(b) && NoItemCarried(b, n)
    ensures Apart(CutsUpTo(b, n, page, usage).groups, IdAt(b, n))
  {
    hide Apart, CarriesItem, IdAt;
    if n == 0 {
      NoneApart(b, page, usage);
    } else {
      ApartRun(b, n - 1, page, usage);
      ApartStep(b, n - 1, page, usage);
    }
  }

  lemma NoneApart(b: seq<Item>, page: u16, usage: u16)
    ensures Apart(CutsUpTo(b, 0, page, usage).groups, IdAt(b, 0))
  {
  }

  /** With IDs from 1 to 255 and no main item carried over, neighbouring groups of a collection have different IDs:
      naming the ID in force again starts no new report. */
  lemma NeighboursHaveOtherIds(a: Application)
    requires PlainIds(a.body) && NoItemCarried(a.body, |a.body|)
    ensures NeighboursDiffer(GroupsOf(a))
  {
    var b, n := a.body, |a.body|;
    ApartRun(b, n, a.page, a.usage);
    var c := CutsUpTo(b, n, a.page, a.usage);
    assert c.groups + [] == c.groups;
    hide CutsUpTo, Whole, IdAt;
    assert NeighboursDiffer(c.groups + [GroupAt(b, c, n)]);
  }

  // ---- bit by bit ----

  /** The bits of some groups that are listed under an ID. */
  function ListedUnder(gs: seq<Group>, id: u8, k: Kind): nat {
    if gs == [] then 0
    else ListedUnder(gs[..|gs| - 1], id, k) + if gs[|gs| - 1].id == id then BitsOf(gs[|gs| - 1], k) else 0
  }

  /** The bits declared by the main items before n while an ID was in force. */
  function DeclaredUnder(b: seq<Item>, n: nat, id: u8, k: Kind): nat
    requires n <= |b|
  {
    if n == 0 then 0
    else DeclaredUnder(b, n - 1, id, k)
         + if b[n - 1].tag == TagOf(k) && IdAt(b, n - 1) == id then Times(SizeAt(b, n - 1), CountAt(b, n - 1)) else 0
  }

  /** The bits of the open group, as far as it would be listed under an ID. */
  function OpenUnder(b: seq<Item>, n: nat, id: u8, k: Kind): nat
    requires n <= |b|
  {
    if IdAt(b, n) == id then Bits(b, TagOf(k), OpenFrom(b, n), n) else 0
  }

  predicate ConservedFor(b: seq<Item>, n: nat, page: u16, usage: u16, id: u8, k: Kind)
    requires n <= |b|
  {
    ListedUnder(CutsUpTo(b, n, page, usage).groups, id, k) + OpenUnder(b, n, id, k) == DeclaredUnder(b, n, id, k)
  }

  /** At n, listed and open bits are for every ID and kind those declared. */
  predicate Conserved(b: seq<Item>, n: nat, page: u16, usage: u16)
    requires n <= |b|
  {
    forall id: u8, k: Kind :: ConservedFor(b, n, page, usage, id, k)
  }

  /** Item k carries bits over into another Report ID. */
  predicate CarriesBits(b: seq<Item>, k: nat)
    requires k < |b|
  {
    ChangesUncut(b, k) && exists kind: Kind :: Bits(b, TagOf(kind), OpenFrom(b, k), k) > 0
  }

  lemma {:induction false} ListedSnoc(gs: seq<Group>, g: Group, id: u8, k: Kind)
    ensures ListedUnder(gs + [g], id, k) == ListedUnder(gs, id, k) + if g.id == id then BitsOf(g, k) else 0
  {
    assert (gs + [g])[..|gs|] == gs;
  }

  /** What one item does to the three sums of an ID and a kind. */
  lemma SumsStep(b: seq<Item>, n: nat, page: u16, usage: u16, id: u8, k: Kind)
    requires n < |b|
    ensures var gs, hs := CutsUpTo(b, n, page, usage).groups, CutsUpTo(b, n + 1, page, usage).groups;
            var open := Bits(b, TagOf(k), OpenFrom(b, n), n);
            var more := if b[n].tag == TagOf(k) then Times(SizeAt(b, n), CountAt(b, n)) else 0;
            && DeclaredUnder(b, n + 1, id, k) == DeclaredUnder(b, n, id, k) + (if IdAt(b, n) == id then more else 0)
            && (if IsCut(b, OpenFrom(b, n), n)
                then && ListedUnder(hs, id, k) == ListedUnder(gs, id, k) + (if IdAt(b, n) == id then open else 0)
                     && OpenUnder(b, n + 1, id, k) == 0 && more == 0
                else && ListedUnder(hs, id, k) == ListedUnder(gs, id, k)
                     && OpenUnder(b, n + 1, id, k) == (if IdAt(b, n + 1) == id then open + more else 0))
  {
    var c := CutsUpTo(b, n, page, usage);
    FromIsOpenFrom(b, n, page, usage);
    OpenStep(b, n);
    ListedSnoc(c.groups, GroupAt(b, c, n), id, k);
    hide IsCut, OpenFrom, ListedUnder, SizeAt, CountAt;
    if b[n].tag == RM_REPORT_ID {
      assert b[n].tag != TagOf(k);
    }
  }

  lemma ConservedKept(b: seq<Item>, n: nat, page: u16, usage: u16)
    requires n < |b| && Conserved(b, n, page, usage) && !CarriesBits(b, n)
    ensures Conserved(b, n + 1, page, usage)
  {
    ChangesStep(b, n);
    var next := n + 1;
    forall id: u8, k: Kind
      ensures ConservedFor(b, next, page, usage, id, k)
    {
      assert ConservedFor(b, n, page, usage, id, k);
      hide IsCut, OpenFrom, IdAt, ChangesUncut, ListedUnder, DeclaredUnder, CutsUpTo, Bits;
      SumsStep(b, n, page, usage, id, k);
      OpenMeans(b, n, id, k);
      if ChangesUncut(b, n) {
        assert Bits(b, TagOf(k), OpenFrom(b, n), n) == 0;
        ChangeDeclaresNothing(b, n, k);
      }
    }
  }

  lemma OpenMeans(b: seq<Item>, n: nat, id: u8, k: Kind)
    requires n <= |b|
    ensures OpenUnder(b, n, id, k) == if IdAt(b, n) == id then Bits(b, TagOf(k), OpenFrom(b, n), n) else 0
  {
  }

  lemma ChangeDeclaresNothing(b: seq<Item>, n: nat, k: Kind)
    requires n < |b| && ChangesUncut(b, n)
    ensures b[n].tag != TagOf(k)
  {
  }

  lemma ConservedLost(b: seq<Item>, n: nat, page: u16, usage: u16)
    requires n < |b| && Conserved(b, n, page, usage) && CarriesBits(b, n)
    ensures !Conserved(b, n + 1, page, usage)
  {
    ChangesStep(b, n);
    var k: Kind :| Bits(b, TagOf(k), OpenFrom(b, n), n) > 0;
    hide IsCut, OpenFrom, IdAt, ListedUnder, DeclaredUnder, CutsUpTo, Bits;
    var id := IdAt(b, n);
    SumsStep(b, n, page, usage, id, k);
    OpenMeans(b, n, id, k);
    ChangeDeclaresNothing(b, n, k);
    assert !IsCut(b, OpenFrom(b, n), n);
    assert ConservedFor(b, n, page, usage, id, k);
    assert !ConservedFor(b, n + 1, page, usage, id, k);
  }

  predicate AlwaysConserved(b: seq<Item>, n: nat, page: u16, usage: u16)
    requires n <= |b|
  {
    forall m :: 0 <= m <= n ==> Conserved(b, m, page, usage)
  }

  predicate NoBitsCarried(b: seq<Item>, n: nat)
    requires n <= |b|
  {
    forall k :: 0 <= k < n ==> !CarriesBits(b, k)
  }

  /** The same for bits: throughout a body the bits listed and to be listed under each ID are those declared under it,
      exactly when no Report ID item carries bits over. */
  lemma {:induction false} ConservedIffNoBitsCarried(b: seq<Item>, n: nat, page: u16, usage: u16)
    requires n <= |b|
    ensures AlwaysConserved(b, n, page, usage) <==> NoBitsCarried(b, n)
  {
    hide Conserved, CarriesBits;
    if n == 0 {
      NothingListed(b, page, usage);
    } else {
      ConservedIffNoBitsCarried(b, n - 1, page, usage);
      if AlwaysConserved(b, n - 1, page, usage) {
        if CarriesBits(b, n - 1) {
          ConservedLost(b, n - 1, page, usage);
        } else {
          ConservedKept(b, n - 1, page, usage);
        }
      }
    }
  }

  lemma NothingListed(b: seq<Item>, page: u16, usage: u16)
    ensures Conserved(b, 0, page, usage)
  {
  }

  // ---- whole descriptors ----

  /** The bits of an application under an ID that are in none of its groups. */
  function TailUnder(a: Application, id: u8, k: Kind): nat {
    var n := |a.body|;
    if a.closed && Whole(a.body, OpenFrom(a.body, n), n) then 0 else OpenUnder(a.body, n, id, k)
  }

  function TailsUnder(apps: seq<Application>, id: u8, k: Kind): nat {
    if apps == [] then 0 else TailUnder(apps[0], id, k) + TailsUnder(apps[1..], id, k)
  }

  function DeclaredIn(apps: seq<Application>, id: u8, k: Kind): nat {
    if apps == [] then 0 else DeclaredUnder(apps[0].body, |apps[0].body|, id, k) + DeclaredIn(apps[1..], id, k)
  }

  lemma {:induction false} ListedAppend(a: seq<Group>, b: seq<Group>, id: u8, k: Kind)
    ensures ListedUnder(a + b, id, k) == ListedUnder(a, id, k) + ListedUnder(b, id, k)
    decreases |b|
  {
    if b == [] {
      assert a + b == a;
    } else {
      var n := |b| - 1;
      assert (a + b)[..|a + b| - 1] == a + b[..n];
      ListedAppend(a, b[..n], id, k);
    }
  }

  /** In one application nothing carried means that every ID gets its own bits, but for a tail that is not listed. */
  lemma ApplicationConserved(a: Application, id: u8, k: Kind)
    requires NoBitsCarried(a.body, |a.body|)
    ensures ListedUnder(GroupsOf(a), id, k) + TailUnder(a, id, k) == DeclaredUnder(a.body, |a.body|, id, k)
  {
    var b, n := a.body, |a.body|;
    ConservedIffNoBitsCarried(b, n, a.page, a.usage);
    assert Conserved(b, n, a.page, a.usage);
    assert ConservedFor(b, n, a.page, a.usage, id, k);
    FromIsOpenFrom(b, n, a.page, a.usage);
    OpenMeans(b, n, id, k);
    var c := CutsUpTo(b, n, a.page, a.usage);
    ListedSnoc(c.groups, GroupAt(b, c, n), id, k);
    assert c.groups + [] == c.groups;
    hide CutsUpTo, OpenFrom, Whole, ListedUnder, DeclaredUnder, Bits, IdAt, Conserved, OpenUnder;
  }

  predicate NoneCarriesBits(apps: seq<Application>) {
    forall i :: 0 <= i < |apps| ==> NoBitsCarried(apps[i].body, |apps[i].body|)
  }

  predicate NoneCarriesItems(apps: seq<Application>) {
    forall i :: 0 <= i < |apps| ==> NoItemCarried(apps[i].body, |apps[i].body|)
  }

  predicate AllConserved(apps: seq<Application>) {
    forall i :: 0 <= i < |apps| ==> AlwaysConserved(apps[i].body, |apps[i].body|, apps[i].page, apps[i].usage)
  }

  predicate AllUnderOwnId(apps: seq<Application>) {
    forall i :: 0 <= i < |apps| ==> AlwaysUnderOwnId(apps[i].body, |apps[i].body|)
  }

  lemma {:induction false} AllGroupsConserved(apps: seq<Application>, id: u8, k: Kind)
    requires NoneCarriesBits(apps)
    ensures ListedUnder(AllGroups(apps), id, k) + TailsUnder(apps, id, k) == DeclaredIn(apps, id, k)
    decreases |apps|
  {
    if apps != [] {
      hide GroupsOf, NoBitsCarried, TailUnder, DeclaredUnder, ListedUnder;
      ApplicationConserved(apps[0], id, k);
      AllGroupsConserved(apps[1..], id, k);
      ListedAppend(GroupsOf(apps[0]), AllGroups(apps[1..]), id, k);
    }
  }

  /** For every byte string: its main items and bits stay under the Report IDs they were declared with exactly when no
      collection carries any over, and then the groups of the descriptor list under each ID all bits declared under it
      except those of tails that are not listed at all. */
  lemma IdsAreKept(data: seq<u8>)
    ensures var apps := Split(Tokenise(data).items).applications;
            && (AllUnderOwnId(apps) <==> NoneCarriesItems(apps))
            && (AllConserved(apps) <==> NoneCarriesBits(apps))
            && (NoneCarriesBits(apps) ==> forall id: u8, k: Kind ::
                  ListedUnder(DescriptorGroups(data), id, k) + TailsUnder(apps, id, k) == DeclaredIn(apps, id, k))
  {
    var apps := Split(Tokenise(data).items).applications;
    hide AlwaysUnderOwnId, NoItemCarried, AlwaysConserved, NoBitsCarried, Split, Tokenise, AllGroups;
    forall i | 0 <= i < |apps|
      ensures AlwaysUnderOwnId(apps[i].body, |apps[i].body|) <==> NoItemCarried(apps[i].body, |apps[i].body|)
      ensures AlwaysConserved(apps[i].body, |apps[i].body|, apps[i].page, apps[i].usage)
         <==> NoBitsCarried(apps[i].body, |apps[i].body|)
    {
      OwnIdIffNothingCarried(apps[i].body, |apps[i].body|);
      ConservedIffNoBitsCarried(apps[i].body, |apps[i].body|, apps[i].page, apps[i].usage);
    }
    if NoneCarriesBits(apps) {
      forall id: u8, k: Kind
        ensures ListedUnder(DescriptorGroups(data), id, k) + TailsUnder(apps, id, k) == DeclaredIn(apps, id, k)
      {
        AllGroupsConserved(apps, id, k);
      }
    }
  }

  // ---- a descriptor that carries bits over ----

  const GAMEPAD_HEADER: seq<Item> := [Item(RM_USAGE_PAGE, [1]), Item(RM_USAGE, [5]), Item(RM_COLLECTION, [1])]
  const UNCUT_BODY: seq<Item> := [
    Item(RM_REPORT_SIZE, [1]), Item(RM_REPORT_COUNT, [3]), Item(RM_REPORT_ID, [1]), Item(RM_INPUT, [2]),
    Item(RM_REPORT_ID, [2]), Item(RM_REPORT_COUNT, [5]), Item(RM_INPUT, [2])]
  const UNCUT_GAMEPAD: seq<u8> := [
    0x05, 0x01, 0x09, 0x05, 0xA1, 0x01,
    0x75, 0x01, 0x95, 0x03, 0x85, 0x01, 0x81, 0x02, 0x85, 0x02, 0x95, 0x05, 0x81, 0x02, 0xC0]

  lemma UncutTail(data: seq<u8>)
    requires data == [0x85, 0x02, 0x95, 0x05, 0x81, 0x02, 0xC0]
    ensures Tokenise(data) == Tokens(UNCUT_BODY[4..] + [END], true)
  {
    hide Tokenise;
    EndItem();
    ByteItem(RM_INPUT, 2, [0xC0]);
    ByteItem(RM_REPORT_COUNT, 5, [0x81, 0x02] + [0xC0]);
    ByteItem(RM_REPORT_ID, 2, [0x95, 0x05] + ([0x81, 0x02] + [0xC0]));
    assert data == [0x85, 0x02] + ([0x95, 0x05] + ([0x81, 0x02] + [0xC0]));
  }

  lemma UncutMiddle(rest: seq<u8>)
    ensures Tokenise([0x85, 0x01, 0x81, 0x02] + rest)
         == Tokens(UNCUT_BODY[2..4] + Tokenise(rest).items, Tokenise(rest).complete)
  {
    hide Tokenise;
    ByteItem(RM_INPUT, 2, rest);
    ByteItem(RM_REPORT_ID, 1, [0x81, 0x02] + rest);
    assert [0x85, 0x01, 0x81, 0x02] + rest == [0x85, 0x01] + ([0x81, 0x02] + rest);
  }

  lemma UncutFront(rest: seq<u8>)
    ensures Tokenise([0x75, 0x01, 0x95, 0x03] + rest)
         == Tokens(UNCUT_BODY[..2] + Tokenise(rest).items, Tokenise(rest).complete)
  {
    hide Tokenise;
    ByteItem(RM_REPORT_COUNT, 3, rest);
    ByteItem(RM_REPORT_SIZE, 1, [0x95, 0x03] + rest);
    assert [0x75, 0x01, 0x95, 0x03] + rest == [0x75, 0x01] + ([0x95, 0x03] + rest);
  }

  lemma UncutHeader(rest: seq<u8>)
    ensures Tokenise([0x05, 0x01, 0x09, 0x05, 0xA1, 0x01] + rest)
         == Tokens(GAMEPAD_HEADER + Tokenise(rest).items, Tokenise(rest).complete)
  {
    hide Tokenise;
    ByteItem(RM_COLLECTION, 1, rest);
    ByteItem(RM_USAGE, 5, [0xA1, 0x01] + rest);
    ByteItem(RM_USAGE_PAGE, 1, [0x09, 0x05] + ([0xA1, 0x01] + rest));
    assert [0x05, 0x01, 0x09, 0x05, 0xA1, 0x01] + rest == [0x05, 0x01] + ([0x09, 0x05] + ([0xA1, 0x01] + rest));
  }

  lemma UncutTokens()
    ensures Tokenise(UNCUT_GAMEPAD) == Tokens(GAMEPAD_HEADER + (UNCUT_BODY + [END]), true)
  {
    hide Tokenise;
    var tail := UNCUT_GAMEPAD[14..];
    UncutTail(tail);
    UncutMiddle(tail);
    UncutFront([0x85, 0x01, 0x81, 0x02] + tail);
    UncutHeader([0x75, 0x01, 0x95, 0x03] + ([0x85, 0x01, 0x81, 0x02] + tail));
    assert UNCUT_GAMEPAD == [0x05, 0x01, 0x09, 0x05, 0xA1, 0x01]
                            + ([0x75, 0x01, 0x95, 0x03] + ([0x85, 0x01, 0x81, 0x02] + tail));
    assert UNCUT_BODY[..2] + (UNCUT_BODY[2..4] + (UNCUT_BODY[4..] + [END])) == UNCUT_BODY + [END];
  }

  lemma UncutSplit()
    ensures Split(GAMEPAD_HEADER + (UNCUT_BODY + [END])) == Layout([Application(1, 5, UNCUT_BODY, true)], Between)
  {
    var items, rest := GAMEPAD_HEADER + (UNCUT_BODY + [END]), UNCUT_BODY + [END];
    UncutCloses();
    SplitFirst(items);
    assert items[3..] == rest && rest[..7] == UNCUT_BODY && rest[8..] == [];
    assert Split([]) == Layout([], Between);
    hide Split, CloseFrom;
  }

  lemma UncutCloses()
    ensures CloseFrom(UNCUT_BODY + [END], 0) == 7
  {
    var rest := UNCUT_BODY + [END];
    assert Balance(rest, 1) == 1 && Balance(rest, 2) == 1 && Balance(rest, 3) == 1 && Balance(rest, 4) == 1;
    assert Balance(rest, 5) == 1 && Balance(rest, 6) == 1 && Balance(rest, 7) == 1 && Balance(rest, 8) == 0;
    assert ClosesAt(rest, 7);
    hide Balance;
  }

  lemma UncutIds()
    ensures var b := UNCUT_BODY;
            && IdAt(b, 0) == 0 && IdAt(b, 1) == 0 && IdAt(b, 2) == 0 && IdAt(b, 3) == 1
            && IdAt(b, 4) == 1 && IdAt(b, 5) == 2 && IdAt(b, 6) == 2 && IdAt(b, 7) == 2
  {
    var b := UNCUT_BODY;
    assert LastValue(b, RM_REPORT_ID, 1) == 0;
    assert LastValue(b, RM_REPORT_ID, 2) == 0;
    assert LastValue(b, RM_REPORT_ID, 3) == 1;
    assert LastValue(b, RM_REPORT_ID, 4) == 1;
    assert LastValue(b, RM_REPORT_ID, 5) == 2;
    assert LastValue(b, RM_REPORT_ID, 6) == 2;
  }

  lemma UncutBits()
    ensures var b := UNCUT_BODY;
            && Bits(b, RM_INPUT, 0, 4) == 3 && Bits(b, RM_INPUT, 0, 7) == 8
            && Bits(b, RM_OUTPUT, 0, 7) == 0 && Bits(b, RM_FEATURE, 0, 7) == 0
  {
    var b := UNCUT_BODY;
    UncutSizes();
    hide SizeAt, CountAt;
    assert Bits(b, RM_INPUT, 0, 1) == 0 && Bits(b, RM_OUTPUT, 0, 1) == 0 && Bits(b, RM_FEATURE, 0, 1) == 0;
    assert Bits(b, RM_INPUT, 0, 2) == 0 && Bits(b, RM_OUTPUT, 0, 2) == 0 && Bits(b, RM_FEATURE, 0, 2) == 0;
    assert Bits(b, RM_INPUT, 0, 3) == 0 && Bits(b, RM_OUTPUT, 0, 3) == 0 && Bits(b, RM_FEATURE, 0, 3) == 0;
    assert Bits(b, RM_INPUT, 0, 4) == 3 && Bits(b, RM_OUTPUT, 0, 4) == 0 && Bits(b, RM_FEATURE, 0, 4) == 0;
    assert Bits(b, RM_INPUT, 0, 5) == 3 && Bits(b, RM_OUTPUT, 0, 5) == 0 && Bits(b, RM_FEATURE, 0, 5) == 0;
    assert Bits(b, RM_INPUT, 0, 6) == 3 && Bits(b, RM_OUTPUT, 0, 6) == 0 && Bits(b, RM_FEATURE, 0, 6) == 0;
  }

  lemma UncutSizes()
    ensures var b := UNCUT_BODY;
            SizeAt(b, 3) == 1 && CountAt(b, 3) == 3 && SizeAt(b, 6) == 1 && CountAt(b, 6) == 5
  {
    var b := UNCUT_BODY;
    assert LastValue(b, RM_REPORT_SIZE, 1) == 1 && LastValue(b, RM_REPORT_SIZE, 3) == 1;
    assert LastValue(b, RM_REPORT_SIZE, 5) == 1;
    assert LastValue(b, RM_REPORT_COUNT, 2) == 3 && LastValue(b, RM_REPORT_COUNT, 6) == 5;
  }

  lemma UncutCuts()
    ensures CutsUpTo(UNCUT_BODY, 7, 1, 5) == Cuts([], 0, 1, 5)
    ensures Whole(UNCUT_BODY, 0, 7)
  {
    var b := UNCUT_BODY;
    UncutIds();
    UncutBits();
    forall k | 0 <= k < 7
      ensures !IsCut(b, 0, k)
    {
      hide Bits, IdAt;
    }
    hide IsCut, Bits, IdAt;
    NeverCut(b, 7, 1, 5);
  }

  lemma {:induction false} NeverCut(b: seq<Item>, n: nat, page: u16, usage: u16)
    requires n <= |b| && forall k :: 0 <= k < n ==> !IsCut(b, 0, k)
    ensures CutsUpTo(b, n, page, usage) == Cuts([], 0, page, usage)
  {
    if n > 0 {
      NeverCut(b, n - 1, page, usage);
      hide IsCut;
    }
  }

  lemma UncutGroups()
    ensures GroupsOf(Application(1, 5, UNCUT_BODY, true)) == [Group(1, 5, 2, 8, 0, 0)]
  {
    UncutCuts();
    UncutBits();
    UncutIds();
    hide CutsUpTo, Whole, Bits, IdAt;
  }

  /** A gamepad that declares three input bits under Report ID 1 and five under 2: no report has ID 1, and one byte is
      returned under ID 2. */
  lemma CarriedBits()
    ensures Parse(FRESH, UNCUT_GAMEPAD).outcome
         == Parsed(ReportMap(Gamepad, APPEARANCE_GAMEPAD, [ReportItem(0, 2, TYPE_INPUT, MODE_REPORT, Gamepad, 1)]))
    ensures DeclaredUnder(UNCUT_BODY, 7, 1, In) == 3 && DeclaredUnder(UNCUT_BODY, 7, 2, In) == 5
    ensures CarriesItem(UNCUT_BODY, 4) && CarriesBits(UNCUT_BODY, 4)
  {
    UncutParses();
    UncutDeclared();
    UncutCarries();
  }

  lemma UncutParses()
    ensures Parse(FRESH, UNCUT_GAMEPAD).outcome
         == Parsed(ReportMap(Gamepad, APPEARANCE_GAMEPAD, [ReportItem(0, 2, TYPE_INPUT, MODE_REPORT, Gamepad, 1)]))
  {
    var l := Listing({Gamepad}, [ReportItem(0, 2, TYPE_INPUT, MODE_REPORT, Gamepad, 1)]);
    assert |l.reports| <= MAX_REPORTS;
    hide *;
    UncutDescriptor();
    UncutListing();
    ParsesTo(UNCUT_GAMEPAD, [Group(1, 5, 2, 8, 0, 0)], l);
    ShownAsGamepad(l);
  }

  lemma ShownAsGamepad(l: Listing)
    requires l.mask == {Gamepad}
    ensures Present(l) == ReportMap(Gamepad, APPEARANCE_GAMEPAD, l.reports)
  {
  }

  lemma ParsesTo(data: seq<u8>, gs: seq<Group>, l: Listing)
    requires Tokenise(data).complete && Split(Tokenise(data).items).ending != Malformed
    requires gs != [] && DescriptorGroups(data) == gs && AddAll(EMPTY, gs) == l && |l.reports| <= MAX_REPORTS
    ensures Parse(FRESH, data).outcome == Parsed(Present(l))
  {
    ParseIsReference(FRESH, data);
    hide DescriptorGroups, Tokenise, Split, AddAll, Parse, Present;
  }

  lemma UncutDescriptor()
    ensures DescriptorGroups(UNCUT_GAMEPAD) == [Group(1, 5, 2, 8, 0, 0)]
    ensures Tokenise(UNCUT_GAMEPAD).complete && Split(Tokenise(UNCUT_GAMEPAD).items).ending == Between
  {
    var a, g := Application(1, 5, UNCUT_BODY, true), Group(1, 5, 2, 8, 0, 0);
    UncutTokens();
    UncutSplit();
    UncutGroups();
    AllGroupsCons(a, []);
    assert [a] + [] == [a] && AllGroups([]) == [] && [g] + [] == [g];
    hide Tokenise, Split, AllGroups, GroupsOf;
  }

  lemma UncutListing()
    ensures AddAll(EMPTY, [Group(1, 5, 2, 8, 0, 0)])
         == Listing({Gamepad}, [ReportItem(0, 2, TYPE_INPUT, MODE_REPORT, Gamepad, 1)])
  {
    var g := Group(1, 5, 2, 8, 0, 0);
    AddAllOne(EMPTY, [], g);
    assert [] + [g] == [g];
    assert Expand(g) == [ReportItem(0, 2, TYPE_INPUT, MODE_REPORT, Gamepad, 1)];
  }

  lemma UncutDeclared()
    ensures DeclaredUnder(UNCUT_BODY, 7, 1, In) == 3 && DeclaredUnder(UNCUT_BODY, 7, 2, In) == 5
  {
    var b := UNCUT_BODY;
    UncutIds();
    UncutSizes();
    hide IdAt, SizeAt, CountAt;
    UncutBefore(1);
    UncutBefore(2);
    assert DeclaredUnder(b, 4, 1, In) == 3 && DeclaredUnder(b, 4, 2, In) == 0;
    assert DeclaredUnder(b, 5, 1, In) == 3 && DeclaredUnder(b, 5, 2, In) == 0;
    assert DeclaredUnder(b, 6, 1, In) == 3 && DeclaredUnder(b, 6, 2, In) == 0;
  }

  lemma UncutBefore(id: u8)
    ensures DeclaredUnder(UNCUT_BODY, 3, id, In) == 0
  {
    var b := UNCUT_BODY;
    assert DeclaredUnder(b, 1, id, In) == 0;
    assert DeclaredUnder(b, 2, id, In) == 0;
  }

  lemma UncutCarries()
    ensures CarriesItem(UNCUT_BODY, 4) && CarriesBits(UNCUT_BODY, 4)
  {
    var b := UNCUT_BODY;
    UncutIds();
    UncutBits();
    NeverCut4(b);
    hide Bits, IdAt, OpenFrom;
    assert IsMain(b[3]);
    assert Bits(b, TagOf(In), 0, 4) == 3;
    assert !Whole(b, 0, 4);
  }

  lemma NeverCut4(b: seq<Item>)
    requires b == UNCUT_BODY
    ensures OpenFrom(b, 4) == 0
  {
    UncutIds();
    forall k | 0 <= k < 4
      ensures !IsCut(b, 0, k)
    {
      hide IdAt;
    }
    hide IsCut;
    NeverCut(b, 4, 0, 0);
  }
}
