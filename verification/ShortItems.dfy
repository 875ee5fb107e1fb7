/** The short-item tokenizer of the report-descriptor parser
    (HID 1.11 section 6.2.2.2; esp_hid/src/esp_hid_common.c, parse_cmd). */
module ShortItems {
  import opened HidTypes

  /** One short item: the prefix without its size bits, and its data bytes, least significant first. */
  datatype Item = Item(tag: u8, data: seq<u8>)
  {
    predicate Valid() {
      tag % 4 == 0 && (|data| <= 2 || |data| == 4)
    }

    function Value(): u32 {
      LittleEndian(data)
    }

    function Prefix(): u8
      requires Valid()
    {
      tag + if |data| == 4 then 3 else |data|
    }

    function Bytes(): seq<u8>
      requires Valid()
    {
      [Prefix()] + data
    }
  }

  const END := Item(RM_END_COLLECTION, [])

  function LittleEndian(data: seq<u8>): u32 {
    (if |data| > 0 then data[0] as int else 0)
    + (if |data| > 1 then data[1] as int * 0x100 else 0)
    + (if |data| > 2 then data[2] as int * 0x1_0000 else 0)
    + (if |data| > 3 then data[3] as int * 0x100_0000 else 0)
  }

  function DataSize(prefix: u8): nat {
    if prefix % 4 == 3 then 4 else prefix % 4
  }

  /** The longest run of complete items at the front, and whether it reaches the end of the bytes. */
  datatype Tokens = Tokens(items: seq<Item>, complete: bool)

  function Tokenise(data: seq<u8>): (t: Tokens)
    ensures AllValid(t.items)
    decreases |data|
  {
    if data == [] then
      Tokens([], true)
    else if |data| - 1 < DataSize(data[0]) then
      Tokens([], false)
    else
      var n := DataSize(data[0]);
      var rest := Tokenise(data[1 + n..]);
      Tokens([Item(data[0] - data[0] % 4, data[1..1 + n])] + rest.items, rest.complete)
  }

  predicate AllValid(items: seq<Item>) {
    forall i :: 0 <= i < |items| ==> items[i].Valid()
  }

  function Encode(items: seq<Item>): seq<u8>
    requires AllValid(items)
  {
    if items == [] then [] else items[0].Bytes() + Encode(items[1..])
  }

  // ---- the value of an item ----

  /** The byte of weight 256^i of an item's data, 0 past its end. */
  function ByteAt(data: seq<u8>, i: nat): u8 {
    if i < |data| then data[i] else 0
  }

  /** The data bytes are the digits of the value to base 256, least significant first, the missing ones 0: there is no
      sign. */
  lemma ValueDigits(it: Item)
    requires it.Valid()
    ensures it.Value() % 0x100 == ByteAt(it.data, 0)
    ensures it.Value() / 0x100 % 0x100 == ByteAt(it.data, 1)
    ensures it.Value() / 0x1_0000 % 0x100 == ByteAt(it.data, 2)
    ensures it.Value() / 0x100_0000 == ByteAt(it.data, 3)
  {
    Digits(ByteAt(it.data, 0), ByteAt(it.data, 1), ByteAt(it.data, 2), ByteAt(it.data, 3), it.Value());
  }

  lemma Digits(d0: u8, d1: u8, d2: u8, d3: u8, v: int)
    requires v == d0 as int + d1 as int * 0x100 + d2 as int * 0x1_0000 + d3 as int * 0x100_0000
    ensures v % 0x100 == d0 && v / 0x100 % 0x100 == d1 && v / 0x1_0000 % 0x100 == d2 && v / 0x100_0000 == d3
  {
    var v1 := d1 as int + d2 as int * 0x100 + d3 as int * 0x1_0000;
    var v2 := d2 as int + d3 as int * 0x100;
    assert v == 0x100 * v1 + d0 && v1 == 0x100 * v2 + d1;
    assert v / 0x100 == v1 && v1 / 0x100 == v2;
    assert v / 0x1_0000 == v2;
    assert v / 0x100_0000 == d3;
  }

  // ---- the tokenizer is a bijection between valid item lists and complete byte strings ----

  lemma PrefixDecodes(it: Item)
    requires it.Valid()
    ensures DataSize(it.Prefix()) == |it.data|
    ensures it.Prefix() - it.Prefix() % 4 == it.tag
  {
    var size := if |it.data| == 4 then 3 else |it.data|;
    assert it.Prefix() % 4 == size;
  }

  lemma TokeniseOne(it: Item, rest: seq<u8>)
    requires it.Valid()
    ensures Tokenise(it.Bytes() + rest) == Tokens([it] + Tokenise(rest).items, Tokenise(rest).complete)
  {
    var all := it.Bytes() + rest;
    PrefixDecodes(it);
    assert all[0] == it.Prefix();
    assert all[1..1 + |it.data|] == it.data;
    assert all[1 + |it.data|..] == rest;
  }

  lemma ConsAppend<T>(s: seq<T>, r: seq<T>)
    requires s != []
    ensures [s[0]] + (s[1..] + r) == s + r
  {
  }

  lemma EncodeCons(items: seq<Item>, rest: seq<u8>)
    requires items != [] && AllValid(items)
    ensures Encode(items) + rest == items[0].Bytes() + (Encode(items[1..]) + rest)
  {
  }

  /** Tokenising a printed list gives the list back, whatever follows it. */
  lemma {:induction false} TokeniseEncode(items: seq<Item>, rest: seq<u8>)
    requires AllValid(items)
    ensures Tokenise(Encode(items) + rest).items == items + Tokenise(rest).items
    ensures Tokenise(Encode(items) + rest).complete == Tokenise(rest).complete
  {
    if items == [] {
      assert Encode(items) + rest == rest;
    } else {
      EncodeCons(items, rest);
      TokeniseEncode(items[1..], rest);
      TokeniseOne(items[0], Encode(items[1..]) + rest);
      ConsAppend(items, Tokenise(rest).items);
    }
  }

  predicate Truncated(left: seq<u8>) {
    left != [] && |left| - 1 < DataSize(left[0])
  }

  lemma FirstItemBytes(data: seq<u8>)
    requires data != [] && !Truncated(data)
    ensures var n := DataSize(data[0]);
            var it := Item(data[0] - data[0] % 4, data[1..1 + n]);
            it.Valid() && it.Bytes() == data[..1 + n]
  {
    var n := DataSize(data[0]);
    var it := Item(data[0] - data[0] % 4, data[1..1 + n]);
    assert (data[0] - data[0] % 4) % 4 == 0;
    assert it.Valid() && it.Prefix() == data[0];
  }

  /** Printing the items of a byte string gives back the bytes they were read from:
      all of them when the string is complete, otherwise all but a truncated last item. */
  lemma {:induction false} EncodeTokenise(data: seq<u8>) returns (left: seq<u8>)
    ensures data == Encode(Tokenise(data).items) + left
    ensures if Tokenise(data).complete then left == [] else Truncated(left)
    decreases |data|
  {
    if data == [] || Truncated(data) {
      left := data;
    } else {
      var n := DataSize(data[0]);
      left := EncodeTokenise(data[1 + n..]);
      FirstItemBytes(data);
      var rest := Tokenise(data[1 + n..]).items;
      assert Tokenise(data).items[1..] == rest;
      assert data == data[..1 + n] + data[1 + n..];
      assert data[..1 + n] + (Encode(rest) + left) == (data[..1 + n] + Encode(rest)) + left;
    }
  }

  /** Tokenising is compositional after a complete string. */
  lemma {:induction false} TokeniseConcat(a: seq<u8>, b: seq<u8>)
    requires Tokenise(a).complete
    ensures Tokenise(a + b)
         == Tokens(Tokenise(a).items + Tokenise(b).items, Tokenise(b).complete)
  {
    var left := EncodeTokenise(a);
    assert Encode(Tokenise(a).items) == a;
    TokeniseEncode(Tokenise(a).items, b);
  }

  /** One call of the tokenizer at `index`: the bytes it consumes (0 at the end, -1 when truncated)
      and the item, agreeing with the first token of the rest of the descriptor. */
  method ParseCmd(data: seq<u8>, index: nat) returns (res: int, cmd: Item)
    requires index <= |data|
    ensures cmd.Valid()
    ensures res == 0 <==> index == |data|
    ensures res < 0 <==> index < |data| && !Tokenise(data[index..]).complete && Tokenise(data[index..]).items == []
    ensures res > 0 ==>
              && index + res <= |data|
              && Tokenise(data[index..])
              == Tokens([cmd] + Tokenise(data[index + res..]).items, Tokenise(data[index + res..]).complete)
  {
    cmd := Item(0, []);
    if index == |data| {
      return 0, cmd;
    }
    var prefix := data[index];
    var tag := prefix - prefix % 4;
    var len := prefix % 4;
    if len == 3 {
      len := 4;
    }
    if |data| - index - 1 < len {
      return -1, cmd;
    }
    cmd := Item(tag, data[index + 1..index + 1 + len]);
    var tail := data[index..];
    assert tail[1..1 + len] == cmd.data;
    assert tail[1 + len..] == data[index + 1 + len..];
    return len + 1, cmd;
  }
}
