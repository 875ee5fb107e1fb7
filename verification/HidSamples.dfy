/** Two descriptors byte by byte, with what HID 1.11 says they describe: every tag the parser knows, items of one and
    two data bytes, and one-byte values above 127 (esp_hid/src/esp_hid_common.c:194-401). */
module HidSamples {
  import opened HidTypes
  import opened ShortItems
  import opened HidReference
  import opened HidMachine
  import opened HidRefinement
  import opened HidLaws
  import opened HidIds
  import opened HidPrinter

  // ---- a vendor device with one report of every kind ----

  const VENDOR: Report := Report(0xFF00, 1, 1, 2, 3, 4)
  const VENDOR_BYTES: seq<u8> := [
    0x06, 0x00, 0xFF, 0x09, 0x01, 0xA1, 0x01,
    0x85, 0x01, 0x75, 0x08, 0x95, 0x02, 0x81, 0x02, 0x95, 0x03, 0x91, 0x02, 0x95, 0x04, 0xB1, 0x02, 0xC0]

  lemma WordItem(tag: u8, lo: u8, hi: u8, rest: seq<u8>)
    requires tag % 4 == 0
    ensures Tokenise([tag + 2, lo, hi] + rest)
         == Tokens([Item(tag, [lo, hi])] + Tokenise(rest).items, Tokenise(rest).complete)
  {
    TokeniseOne(Item(tag, [lo, hi]), rest);
    hide Tokenise;
    assert Item(tag, [lo, hi]).Bytes() == [tag + 2, lo, hi];
  }

  lemma TwoItems(tag: u8, v: u8, tag2: u8, v2: u8, rest: seq<u8>)
    requires tag % 4 == 0 && tag2 % 4 == 0
    ensures Tokenise([tag + 1, v, tag2 + 1, v2] + rest)
         == Tokens([Item(tag, [v]), Item(tag2, [v2])] + Tokenise(rest).items, Tokenise(rest).complete)
  {
    hide Tokenise;
    ByteItem(tag2, v2, rest);
    ByteItem(tag, v, [tag2 + 1, v2] + rest);
    assert [tag + 1, v, tag2 + 1, v2] + rest == [tag + 1, v] + ([tag2 + 1, v2] + rest);
  }

  /** The tail from the first count on. */
  lemma VendorTail(data: seq<u8>)
    requires data == [0x95, 0x02, 0x81, 0x02, 0x95, 0x03, 0x91, 0x02, 0x95, 0x04, 0xB1, 0x02, 0xC0]
    ensures Tokenise(data) == Tokens([Item(0x94, [2]), Item(0x80, [2]), Item(0x94, [3]), Item(0x90, [2]),
                                      Item(0x94, [4]), Item(0xB0, [2]), Item(0xC0, [])], true)
  {
    hide Tokenise;
    EndItem();
    var c := [0x95, 0x04, 0xB1, 0x02] + [0xC0];
    var b := [0x95, 0x03, 0x91, 0x02] + c;
    TwoItems(0x94, 4, 0xB0, 2, [0xC0]);
    TwoItems(0x94, 3, 0x90, 2, c);
    TwoItems(0x94, 2, 0x80, 2, b);
    assert data == [0x95, 0x02, 0x81, 0x02] + b;
  }

  lemma VendorTokens()
    ensures Tokenise(VENDOR_BYTES)
         == Tokens([Item(0x04, [0x00, 0xFF]), Item(0x08, [1]), Item(0xA0, [1]), Item(0x84, [1]), Item(0x74, [8]),
                    Item(0x94, [2]), Item(0x80, [2]), Item(0x94, [3]), Item(0x90, [2]),
                    Item(0x94, [4]), Item(0xB0, [2]), Item(0xC0, [])], true)
  {
    hide Tokenise;
    var c := VENDOR_BYTES[11..];
    VendorTail(c);
    var b := [0x85, 0x01, 0x75, 0x08] + c;
    var a := [0x09, 0x01, 0xA1, 0x01] + b;
    TwoItems(0x84, 1, 0x74, 8, c);
    TwoItems(0x08, 1, 0xA0, 1, b);
    WordItem(0x04, 0x00, 0xFF, a);
    assert VENDOR_BYTES == [0x06, 0x00, 0xFF] + a;
  }

  lemma VendorPrinted()
    ensures ValidAll([Collection(VENDOR, [])])
    ensures Tokenise(VENDOR_BYTES) == Tokens(Print([Collection(VENDOR, [])]), true)
  {
    var c := Collection(VENDOR, []);
    VendorTokens();
    hide Tokenise;
    assert [c][1..] == [] && Print([c]) == PrintOne(c) + [];
    assert PrintLater(VENDOR, []) + [END] == [END];
    assert First(VENDOR) == [Item(0x84, [1])] + Fields(VENDOR);
    assert Fields(VENDOR) == [Item(0x74, [8]), Item(0x94, [2]), Item(0x80, [2]), Item(0x94, [3]), Item(0x90, [2]),
                              Item(0x94, [4]), Item(0xB0, [2])];
    assert Header(VENDOR) == [Item(0x04, [0x00, 0xFF]), Item(0x08, [1]), Item(0xA0, [1])];
  }

  /** Two input, three output and four feature bytes under Report ID 1. */
  lemma VendorDevice()
    ensures Parse(FRESH, VENDOR_BYTES).outcome
         == Parsed(ReportMap(Generic, 0x03C0, [ReportItem(0, 1, 1, 1, Vendor, 2), ReportItem(0, 1, 2, 1, Vendor, 3),
                                               ReportItem(0, 1, 3, 1, Vendor, 4)]))
  {
    var cs := [Collection(VENDOR, [])];
    VendorPrinted();
    VendorListing();
    hide Tokenise, Print, Parse, AddAll, DescribeAll;
    var left := EncodeTokenise(VENDOR_BYTES);
    assert VENDOR_BYTES == Encode(Print(cs)) + [] == Encode(Print(cs));
    hide Encode;
    RoundTrip(FRESH, cs);
  }

  lemma VendorListing()
    ensures AddAll(EMPTY, DescribeAll([Collection(VENDOR, [])]))
         == Listing({Vendor}, [ReportItem(0, 1, 1, 1, Vendor, 2), ReportItem(0, 1, 2, 1, Vendor, 3),
                               ReportItem(0, 1, 3, 1, Vendor, 4)])
  {
    var c, g := Collection(VENDOR, []), VENDOR.Described();
    assert [c][1..] == [] && DescribeAll([c]) == [g] + [] == [g];
    AddAllOne(EMPTY, [], g);
    assert [] + [g] == [g];
    DescribedOthers(VENDOR, Vendor);
  }

  // ---- a keyboard with a bitmap of 232 keys ----

  const BITMAP_BODY: seq<Item> := [Item(0x84, [1]), Item(0x74, [1]), Item(0x94, [0xE8]), Item(0x80, [2])]
  const BITMAP_BYTES: seq<u8> :=
    [0x05, 0x01, 0x09, 0x06, 0xA1, 0x01, 0x85, 0x01, 0x75, 0x01, 0x95, 0xE8, 0x81, 0x02, 0xC0]

  lemma BitmapTokens()
    ensures Tokenise(BITMAP_BYTES) == Tokens(KEYBOARD_HEADER + (BITMAP_BODY + [END]), true)
  {
    hide Tokenise;
    EndItem();
    var b := [0x95, 0xE8, 0x81, 0x02] + [0xC0];
    var a := [0x85, 0x01, 0x75, 0x01] + b;
    TwoItems(0x94, 0xE8, 0x80, 2, [0xC0]);
    TwoItems(0x84, 1, 0x74, 1, b);
    HeaderTokens(a);
    assert BITMAP_BYTES == [0x05, 0x01, 0x09, 0x06, 0xA1, 0x01] + a;
  }

  lemma BitmapSplit()
    ensures Split(KEYBOARD_HEADER + (BITMAP_BODY + [END])) == Layout([Application(1, 6, BITMAP_BODY, true)], Between)
  {
    var items, rest := KEYBOARD_HEADER + (BITMAP_BODY + [END]), BITMAP_BODY + [END];
    BitmapCloses();
    SplitFirst(items);
    assert items[3..] == rest && rest[..4] == BITMAP_BODY && rest[5..] == [];
    assert Split([]) == Layout([], Between);
    hide Split, CloseFrom;
  }

  lemma BitmapCloses()
    ensures CloseFrom(BITMAP_BODY + [END], 0) == 4
  {
    var rest := BITMAP_BODY + [END];
    assert Balance(rest, 1) == 1 && Balance(rest, 2) == 1 && Balance(rest, 3) == 1 && Balance(rest, 4) == 1;
    assert Balance(rest, 5) == 0;
    assert ClosesAt(rest, 4);
    hide Balance;
  }

  lemma BitmapBits()
    ensures var b := BITMAP_BODY;
            && Bits(b, RM_INPUT, 0, 4) == 232 && Bits(b, RM_OUTPUT, 0, 4) == 0 && Bits(b, RM_FEATURE, 0, 4) == 0
            && IdAt(b, 0) == 0 && IdAt(b, 4) == 1
  {
    var b := BITMAP_BODY;
    assert LastValue(b, RM_REPORT_SIZE, 2) == 1 && LastValue(b, RM_REPORT_COUNT, 3) == 232;
    assert SizeAt(b, 3) == 1 && CountAt(b, 3) == 232;
    assert LastValue(b, RM_REPORT_ID, 1) == 1 && LastValue(b, RM_REPORT_ID, 2) == 1;
    assert LastValue(b, RM_REPORT_ID, 3) == 1;
    hide SizeAt, CountAt;
    assert Bits(b, RM_INPUT, 0, 1) == 0 && Bits(b, RM_OUTPUT, 0, 1) == 0 && Bits(b, RM_FEATURE, 0, 1) == 0;
    assert Bits(b, RM_INPUT, 0, 2) == 0 && Bits(b, RM_OUTPUT, 0, 2) == 0 && Bits(b, RM_FEATURE, 0, 2) == 0;
    assert Bits(b, RM_INPUT, 0, 3) == 0 && Bits(b, RM_OUTPUT, 0, 3) == 0 && Bits(b, RM_FEATURE, 0, 3) == 0;
  }

  lemma BitmapGroups()
    ensures GroupsOf(Application(1, 6, BITMAP_BODY, true)) == [Group(1, 6, 1, 232, 0, 0)]
  {
    var b := BITMAP_BODY;
    BitmapBits();
    forall k | 0 <= k < 4
      ensures !IsCut(b, 0, k)
    {
      hide Bits, IdAt;
    }
    hide IsCut, Bits, IdAt;
    NeverCut(b, 4, 1, 6);
    assert Whole(b, 0, 4);
    hide CutsUpTo, Whole;
  }

  lemma BitmapDescriptor()
    ensures DescriptorGroups(BITMAP_BYTES) == [Group(1, 6, 1, 232, 0, 0)]
    ensures Tokenise(BITMAP_BYTES).complete && Split(Tokenise(BITMAP_BYTES).items).ending == Between
  {
    var a, g := Application(1, 6, BITMAP_BODY, true), Group(1, 6, 1, 232, 0, 0);
    BitmapTokens();
    BitmapSplit();
    BitmapGroups();
    AllGroupsCons(a, []);
    assert [a] + [] == [a] && AllGroups([]) == [] && [g] + [] == [g];
    hide Tokenise, Split, AllGroups, GroupsOf;
  }

  lemma BitmapListing()
    ensures AddAll(EMPTY, [Group(1, 6, 1, 232, 0, 0)])
         == Listing({Keyboard}, [ReportItem(0, 1, 1, 1, Keyboard, 29), ReportItem(0, 1, 1, 0, Keyboard, 8)])
  {
    var g := Group(1, 6, 1, 232, 0, 0);
    AddAllOne(EMPTY, [], g);
    assert [] + [g] == [g];
    assert Expand(g) == [ReportItem(0, 1, 1, 1, Keyboard, 29), ReportItem(0, 1, 1, 0, Keyboard, 8)];
  }

  /** 232 one-bit keys are an input report of 29 bytes. */
  lemma BitmapKeyboard()
    ensures Parse(FRESH, BITMAP_BYTES).outcome
         == Parsed(ReportMap(Keyboard, 0x03C1, [ReportItem(0, 1, 1, 1, Keyboard, 29),
                                                ReportItem(0, 1, 1, 0, Keyboard, 8)]))
  {
    var l := Listing({Keyboard}, [ReportItem(0, 1, 1, 1, Keyboard, 29), ReportItem(0, 1, 1, 0, Keyboard, 8)]);
    assert |l.reports| <= MAX_REPORTS && Present(l) == ReportMap(Keyboard, 0x03C1, l.reports);
    hide *;
    BitmapDescriptor();
    BitmapListing();
    ParsesTo(BITMAP_BYTES, [Group(1, 6, 1, 232, 0, 0)], l);
  }
}
