/** Edge-triggered translation of keyboard input reports (src/bt_kbd.c:113-194). */
module KeyTranslator {
  import opened HidTypes

  const LOWER: string := "abcdefghijklmnopqrstuvwxyz"
  const UPPER: string := "ABCDEFGHIJKLMNOPQRSTUVWXYZ"
  const PLAIN: string := "1234567890\r\U{1b}\U{7f}\t -=[]\\\0;'`,./"
  const MARKED: string := "!@#$%^&*()\r\U{1b}\U{7f}\t _+{}|\0:\"~<>?"
  const NORMAL: string := "\0\0\0\0" + LOWER + PLAIN
  const SHIFTED: string := "\0\0\0\0" + UPPER + MARKED

  lemma KeymapSizes()
    ensures |NORMAL| == 57 && |SHIFTED| == 57
  {
  }

  // ---- specification ----

  predicate Shift(mod: u8) { mod / 0x02 % 2 == 1 || mod / 0x20 % 2 == 1 }

  predicate Ctrl(mod: u8) { mod % 2 == 1 || mod / 0x10 % 2 == 1 }

  function Arrow(code: u8): Option<string> {
    if code == 0x4F then Some("\U{1b}[C")
    else if code == 0x50 then Some("\U{1b}[D")
    else if code == 0x51 then Some("\U{1b}[B")
    else if code == 0x52 then Some("\U{1b}[A")
    else None
  }

  function Char(code: u8, mod: u8): char {
    if code as int < |NORMAL| && code as int < |SHIFTED| then
      var ch := if Shift(mod) then SHIFTED[code] else NORMAL[code];
      if Ctrl(mod) && 'a' <= ch <= 'z' then (ch as int - 96) as char
      else if Ctrl(mod) && 'A' <= ch <= 'Z' then (ch as int - 64) as char
      else ch
    else '\0'
  }

  /** The characters a newly pressed key sends. */
  function Translate(code: u8, mod: u8): string {
    match Arrow(code)
    case Some(s) => s
    case None => if Char(code, mod) == '\0' then "" else [Char(code, mod)]
  }

  /** Letter keys, whatever other modifiers are held: Control gives the control code of the letter with or
      without Shift, otherwise Shift gives the capital. */
  lemma LetterKeys(k: nat, mod: u8)
    requires k < 26
    ensures Translate(4 + k, mod)
         == if Ctrl(mod) then [(1 + k) as char]
            else if Shift(mod) then [('A' as int + k) as char] else [('a' as int + k) as char]
  {
    LettersInOrder(k);
  }

  lemma LettersInOrder(k: nat)
    requires k < 26
    ensures NORMAL[4 + k] == ('a' as int + k) as char
    ensures SHIFTED[4 + k] == ('A' as int + k) as char
  {
    assert NORMAL[4 + k] == LOWER[k];
    assert SHIFTED[4 + k] == UPPER[k];
  }

  /** Where a US keyboard has each printable character: the key code, and whether Shift is needed. */
  function KeyFor(c: char): (u8, bool) {
    if 'a' <= c <= 'z' then (c as int - 'a' as int + 4, false)
    else if 'A' <= c <= 'Z' then (c as int - 'A' as int + 4, true)
    else if '1' <= c <= '9' then (c as int - '1' as int + 30, false)
    else match c
      case '0' => (39, false) case ' ' => (44, false)
      case '!' => (30, true) case '@' => (31, true) case '#' => (32, true) case '$' => (33, true)
      case '%' => (34, true) case '^' => (35, true) case '&' => (36, true) case '*' => (37, true)
      case '(' => (38, true) case ')' => (39, true)
      case '-' => (45, false) case '_' => (45, true) case '=' => (46, false) case '+' => (46, true)
      case '[' => (47, false) case '{' => (47, true) case ']' => (48, false) case '}' => (48, true)
      case '\\' => (49, false) case '|' => (49, true) case ';' => (51, false) case ':' => (51, true)
      case '\'' => (52, false) case '"' => (52, true) case '`' => (53, false) case '~' => (53, true)
      case ',' => (54, false) case '<' => (54, true) case '.' => (55, false) case '>' => (55, true)
      case '/' => (56, false) case '?' => (56, true)
      case _ => (0, false)
  }

  /** The two keymaps hold exactly the printable characters of a US keyboard, each on its own key: without
      Control, a key sends a printable character exactly when it is that character's key with the right
      Shift (Space disregards Shift). */
  lemma PrintableKeys(code: u8, mod: u8, c: char)
    requires ' ' <= c <= '~' && !Ctrl(mod)
    ensures Translate(code, mod) == [c] <==> code == KeyFor(c).0 && (c == ' ' || Shift(mod) == KeyFor(c).1)
  {
    hide *;
    KeyRange(c);
    if 4 <= code < 30 {
      PrintableLetter(code - 4, mod, c);
    } else if 30 <= code < 57 {
      PrintableOther(code, mod, c);
    } else {
      NoPrintable(code, mod, c);
    }
  }

  lemma NoPrintable(code: u8, mod: u8, c: char)
    requires code < 4 || code >= 57
    ensures Translate(code, mod) != [c]
  {
    SilentKeys(code, mod);
    hide Char, Shift, Ctrl;
  }

  lemma PrintableLetter(k: nat, mod: u8, c: char)
    requires k < 26 && ' ' <= c <= '~' && !Ctrl(mod)
    ensures Translate(4 + k, mod) == [c] <==> 4 + k == KeyFor(c).0 && Shift(mod) == KeyFor(c).1
    ensures c == ' ' ==> 4 + k != KeyFor(c).0
  {
    hide *;
    LetterKeys(k, mod);
    KeyForLetter(k, c);
  }

  lemma KeyForLetter(k: nat, c: char)
    requires k < 26 && ' ' <= c <= '~'
    ensures KeyFor(c) == (4 + k, false) <==> c as int == 'a' as int + k
    ensures KeyFor(c) == (4 + k, true) <==> c as int == 'A' as int + k
    ensures c == ' ' ==> KeyFor(c) == (44, false)
  {
  }

  lemma PrintableOther(code: u8, mod: u8, c: char)
    requires 30 <= code < 57 && ' ' <= c <= '~' && !Ctrl(mod)
    ensures Translate(code, mod) == [c] <==> code == KeyFor(c).0 && (c == ' ' || Shift(mod) == KeyFor(c).1)
  {
    hide *;
    OtherKeys(code, mod);
    PlainKeys(code - 30);
    MarkedKeys(code - 30);
    SpaceKey();
    if KeyFor(c).0 >= 30 {
      if KeyFor(c).1 {
        MarkedTypes(c);
      } else {
        PlainTypes(c);
      }
    }
  }

  lemma KeyRange(c: char)
    requires ' ' <= c <= '~'
    ensures 4 <= KeyFor(c).0 < 57
  {
  }

  /** A key that is no letter sends what its keymap says, with or without Control. */
  lemma OtherKeys(code: u8, mod: u8)
    requires 30 <= code < 57
    ensures var ch := if Shift(mod) then MARKED[code - 30] else PLAIN[code - 30];
            Translate(code, mod) == if ch == '\0' then "" else [ch]
  {
    KeymapSizes();
    assert NORMAL[code] == PLAIN[code - 30];
    assert SHIFTED[code] == MARKED[code - 30];
    NoLetters(code - 30);
    hide PLAIN, MARKED, NORMAL, SHIFTED;
  }

  lemma NoLetters(k: nat)
    requires k < 27
    ensures !('a' <= PLAIN[k] <= 'z') && !('A' <= PLAIN[k] <= 'Z')
    ensures !('a' <= MARKED[k] <= 'z') && !('A' <= MARKED[k] <= 'Z')
  {
  }

  /** Enter, Escape, Backspace and Tab, and the arrow keys right, left, down and up, whatever modifiers are held. */
  lemma SpecialKeys(mod: u8)
    ensures Translate(40, mod) == "\r" && Translate(41, mod) == ['\U{1b}']
    ensures Translate(42, mod) == ['\U{7f}'] && Translate(43, mod) == "\t"
    ensures Translate(0x4F, mod) == ['\U{1b}', '[', 'C'] && Translate(0x50, mod) == ['\U{1b}', '[', 'D']
    ensures Translate(0x51, mod) == ['\U{1b}', '[', 'B'] && Translate(0x52, mod) == ['\U{1b}', '[', 'A']
  {
    EditingKeys();
    OtherKeys(40, mod);
    OtherKeys(41, mod);
    OtherKeys(42, mod);
    OtherKeys(43, mod);
    hide Char;
  }

  lemma EditingKeys()
    ensures PLAIN[10] == MARKED[10] == '\r' && PLAIN[11] == MARKED[11] == '\U{1b}'
    ensures PLAIN[12] == MARKED[12] == '\U{7f}' && PLAIN[13] == MARKED[13] == '\t'
  {
  }

  /** Control changes nothing but letters. */
  lemma ControlOnlyLetters(code: u8, mod: u8, plain: u8)
    requires !(4 <= code < 30) && Shift(mod) == Shift(plain)
    ensures Translate(code, mod) == Translate(code, plain)
  {
    if 30 <= code < 57 {
      OtherKeys(code, mod);
      OtherKeys(code, plain);
      hide Translate;
    } else if !(0x4F <= code <= 0x52) {
      SilentKeys(code, mod);
      SilentKeys(code, plain);
      hide Translate;
    }
  }

  /** Of the eight modifier bits the first and fifth are Control, left and right, and the second and sixth are Shift. */
  lemma ModifierBits(mod: u8, b: seq<u8>)
    requires |b| == 8 && forall i :: 0 <= i < 8 ==> b[i] <= 1
    requires mod == b[0] as int + 2 * (b[1] as int) + 4 * (b[2] as int) + 8 * (b[3] as int)
                    + 16 * (b[4] as int) + 32 * (b[5] as int) + 64 * (b[6] as int) + 128 * (b[7] as int)
    ensures Ctrl(mod) <==> b[0] == 1 || b[4] == 1
    ensures Shift(mod) <==> b[1] == 1 || b[5] == 1
  {
    var h0 := b[1] as int + 2 * (b[2] as int) + 4 * (b[3] as int);
    var h4 := b[5] as int + 2 * (b[6] as int) + 4 * (b[7] as int);
    var low := b[0] as int + 2 * h0;
    assert mod == low + 0x10 * (b[4] as int + 2 * h4);
    assert mod / 0x10 == b[4] as int + 2 * h4;
    assert mod == b[0] as int + 2 * (h0 + 8 * (b[4] as int + 2 * h4));
    assert mod / 0x02 == h0 + 8 * (b[4] as int + 2 * h4);
    assert mod / 0x20 == h4;
  }

  lemma PlainKeys(k: nat)
    requires k < 27
    ensures ' ' <= PLAIN[k] <= '~' ==> KeyFor(PLAIN[k]) == (30 + k, false)
  {
  }

  lemma MarkedKeys(k: nat)
    requires k < 27
    ensures ' ' <= MARKED[k] <= '~' ==> if k == 14 then MARKED[k] == ' ' else KeyFor(MARKED[k]) == (30 + k, true)
  {
  }

  lemma PlainTypes(c: char)
    requires ' ' <= c <= '~' && KeyFor(c).0 >= 30 && !KeyFor(c).1
    ensures KeyFor(c).0 < 57 && c == PLAIN[KeyFor(c).0 - 30]
  {
  }

  lemma MarkedTypes(c: char)
    requires ' ' <= c <= '~' && KeyFor(c).0 >= 30 && KeyFor(c).1
    ensures KeyFor(c).0 < 57 && c == MARKED[KeyFor(c).0 - 30]
  {
  }

  lemma SpaceKey()
    ensures KeyFor(' ') == (44, false) && MARKED[14] == ' ' == PLAIN[14]
  {
  }

  /** Codes past the keymap and the empty keymap slots send nothing. */
  lemma SilentKeys(code: u8, mod: u8)
    ensures code >= 57 && !(0x4F <= code <= 0x52) ==> Translate(code, mod) == ""
    ensures code < 4 || code == 50 ==> Translate(code, mod) == ""
  {
    KeymapSizes();
    assert NORMAL[50] == SHIFTED[50] == '\0';
  }

  type Keys = s: seq<u8> | |s| == 6 witness [0, 0, 0, 0, 0, 0]

  const NO_KEYS: Keys := [0, 0, 0, 0, 0, 0]

  /** The six key slots of a report; slots beyond its end are empty. */
  function Slots(report: seq<u8>): Keys {
    seq(6, i requires 0 <= i < 6 => if i + 1 < |report| then report[i + 1] else 0)
  }

  predicate Pressed(keys: seq<u8>, code: u8) {
    exists j :: 0 <= j < |keys| && keys[j] == code
  }

  /** The nonzero codes among the first n slots that the previous slots do not hold, in slot order. */
  function Edges(cur: seq<u8>, prev: seq<u8>, n: nat): seq<u8>
    requires n <= |cur|
  {
    if n == 0 then []
    else
      var before := Edges(cur, prev, n - 1);
      if cur[n - 1] != 0 && !Pressed(prev, cur[n - 1]) then before + [cur[n - 1]] else before
  }

  function TranslateAll(codes: seq<u8>, mod: u8): string {
    if codes == [] then ""
    else TranslateAll(codes[..|codes| - 1], mod) + Translate(codes[|codes| - 1], mod)
  }

  lemma TranslateSnoc(codes: seq<u8>, code: u8, mod: u8)
    ensures TranslateAll(codes + [code], mod) == TranslateAll(codes, mod) + Translate(code, mod)
  {
    assert (codes + [code])[..|codes|] == codes;
  }

  // ---- which bytes are keys, and in what order they are translated ----

  /** The new codes of some slots are those of the first of them followed by those of the rest. */
  lemma {:induction false} EdgesSplit(cur: seq<u8>, prev: seq<u8>, m: nat, n: nat)
    requires m <= n <= |cur|
    ensures Edges(cur, prev, n) == Edges(cur, prev, m) + Edges(cur[m..], prev, n - m)
  {
    if m < n {
      EdgesSplit(cur, prev, m, n - 1);
      assert cur[m..][n - 1 - m] == cur[n - 1];
    }
  }

  lemma {:induction false} NoEdges(cur: seq<u8>, prev: seq<u8>, n: nat)
    requires n <= |cur| && forall i :: 0 <= i < n ==> cur[i] == 0
    ensures Edges(cur, prev, n) == []
  {
    if n > 0 {
      NoEdges(cur, prev, n - 1);
    }
  }

  /** A report of n bytes that holds the modifiers in its first byte and zeros otherwise, but for two bytes. */
  function TwoKeys(n: nat, mod: u8, p: nat, a: u8, q: nat, b: u8): seq<u8>
    requires 0 < n
  {
    seq(n, i requires 0 <= i < n => if i == 0 then mod else if i == p then a else if i == q then b else 0)
  }

  lemma SlotsOf(n: nat, mod: u8, p: nat, a: u8, q: nat, b: u8)
    requires n >= 3 && 1 <= p < q < n
    ensures var s := Slots(TwoKeys(n, mod, p, a, q, b));
            forall i :: 0 <= i < 6 ==> s[i] == if i + 1 == p then a else if i + 1 == q then b else 0
  {
  }

  lemma OneEdge(cur: seq<u8>, prev: seq<u8>, k: nat, n: nat)
    requires k < n <= |cur| && cur[k] != 0 && !Pressed(prev, cur[k])
    requires forall i :: 0 <= i < n && i != k ==> cur[i] == 0
    ensures Edges(cur, prev, n) == [cur[k]]
  {
    EdgesSplit(cur, prev, k, n);
    EdgesSplit(cur[k..], prev, 1, n - k);
    NoEdges(cur, prev, k);
    NoEdges(cur[k..][1..], prev, n - k - 1);
    assert Edges(cur[k..], prev, 0) == [];
    assert Edges(cur[k..], prev, 1) == [cur[k]];
  }

  lemma TwoEdges(cur: seq<u8>, prev: seq<u8>, k: nat, l: nat, n: nat)
    requires k < l < n <= |cur| && cur[k] != 0 && !Pressed(prev, cur[k]) && cur[l] != 0 && !Pressed(prev, cur[l])
    requires forall i :: 0 <= i < n && i != k && i != l ==> cur[i] == 0
    ensures Edges(cur, prev, n) == [cur[k], cur[l]]
  {
    EdgesSplit(cur, prev, l, n);
    OneEdge(cur, prev, k, l);
    OneEdge(cur[l..], prev, 0, n - l);
  }

  /** With nothing held before, a report of any length translates the codes in its bytes 1 to 6, in that order, and no
      byte after the sixth. */
  lemma KeysInOrder(n: nat, mod: u8, p: nat, a: u8, q: nat, b: u8)
    requires n >= 3 && 1 <= p < q < n && a != 0 && b != 0
    ensures EmittedBy(NO_KEYS, [Report(TwoKeys(n, mod, p, a, q, b))])
         == (if p <= 6 then Translate(a, mod) else "") + (if q <= 6 then Translate(b, mod) else "")
  {
    var r := TwoKeys(n, mod, p, a, q, b);
    var cur := Slots(r);
    SlotsOf(n, mod, p, a, q, b);
    if q <= 6 {
      TwoEdges(cur, NO_KEYS, p - 1, q - 1, 6);
    } else if p <= 6 {
      OneEdge(cur, NO_KEYS, p - 1, 6);
    } else {
      NoEdges(cur, NO_KEYS, 6);
    }
    FirstReportEmits(r);
    hide Slots, Edges, Translate, EmittedBy, TwoKeys;
    TranslateOne(a, mod);
    TranslateTwo(a, b, mod);
  }

  lemma FirstReportEmits(r: seq<u8>)
    requires |r| >= 3
    ensures EmittedBy(NO_KEYS, [Report(r)]) == TranslateAll(Edges(Slots(r), NO_KEYS, 6), r[0])
  {
    hide Slots, Edges, TranslateAll;
    assert [Report(r)][..0] == [];
    assert EmittedBy(NO_KEYS, []) == "" && KeysAfter(NO_KEYS, []) == NO_KEYS;
    assert "" + TranslateAll(Edges(Slots(r), NO_KEYS, 6), r[0]) == TranslateAll(Edges(Slots(r), NO_KEYS, 6), r[0]);
  }

  lemma TranslateOne(a: u8, mod: u8)
    ensures TranslateAll([], mod) == "" && TranslateAll([a], mod) == Translate(a, mod)
  {
    hide Translate;
    TranslateSnoc([], a, mod);
    assert [] + [a] == [a] && "" + Translate(a, mod) == Translate(a, mod);
  }

  lemma TranslateTwo(a: u8, b: u8, mod: u8)
    ensures TranslateAll([a, b], mod) == Translate(a, mod) + Translate(b, mod)
  {
    hide Translate, TranslateAll;
    TranslateOne(a, mod);
    TranslateSnoc([a], b, mod);
    assert [a] + [b] == [a, b];
  }

  /** Entering CONNECTED sends NUL and forgets every key, so that keys still held are translated again. */
  lemma EnteredForgets(start: Keys, inputs: seq<Input>)
    ensures KeysAfter(start, inputs + [Entered]) == [0, 0, 0, 0, 0, 0]
    ensures EmittedBy(start, inputs + [Entered]) == EmittedBy(start, inputs) + "\0"
  {
    assert (inputs + [Entered])[..|inputs|] == inputs;
  }

  // ---- the translator ----

  class Translator {
    const prevKeys: array<u8>

    ghost predicate Valid() {
      prevKeys.Length == 6
    }

    ghost function Prev(): Keys
      reads prevKeys
      requires Valid()
    {
      prevKeys[..]
    }

    constructor ()
      ensures Valid() && Prev() == NO_KEYS && fresh(prevKeys)
    {
      prevKeys := new u8[6](_ => 0);
    }

    /** On entering the connected state. */
    method Reset()
      requires Valid()
      modifies prevKeys
      ensures Prev() == NO_KEYS
    {
      forall i | 0 <= i < 6 {
        prevKeys[i] := 0;
      }
    }

    method WasPressed(code: u8) returns (pressed: bool)
      requires Valid()
      ensures pressed == Pressed(Prev(), code)
    {
      for j := 0 to 6
        invariant forall k :: 0 <= k < j ==> prevKeys[k] != code
      {
        if prevKeys[j] == code {
          return true;
        }
      }
      return false;
    }

    /** Characters emitted for one input report; reports shorter than three bytes change nothing. */
    method TranslateReport(report: seq<u8>) returns (emitted: string)
      requires Valid()
      modifies prevKeys
      ensures |report| < 3 ==> emitted == "" && Prev() == old(Prev())
      ensures |report| >= 3 ==>
                && Prev() == Slots(report)
                && emitted == TranslateAll(Edges(Slots(report), old(Prev()), 6), report[0])
    {
      emitted := "";
      if |report| < 3 {
        return;
      }
      var mod := report[0];
      var cur := new u8[6](_ => 0);
      for i := 0 to 6
        invariant forall k :: 0 <= k < i ==> cur[k] == Slots(report)[k]
        invariant forall k :: i <= k < 6 ==> cur[k] == 0
        invariant Prev() == old(Prev())
      {
        if i + 1 < |report| {
          cur[i] := report[i + 1];
        }
      }
      ghost var slots: Keys := cur[..];
      assert slots == Slots(report);
      for i := 0 to 6
        invariant cur[..] == slots && Prev() == old(Prev())
        invariant emitted == TranslateAll(Edges(slots, Prev(), i), mod)
      {
        var code := cur[i];
        if code != 0 {
          var wasPressed := WasPressed(code);
          if !wasPressed {
            TranslateSnoc(Edges(slots, Prev(), i), code, mod);
            emitted := emitted + Translate(code, mod);
          }
        }
      }
      forall i | 0 <= i < 6 {
        prevKeys[i] := cur[i];
      }
    }
  }

  // ---- whole runs ----

  /** What happens to the translator: an input report arrives, or the main task enters the connected state, which
      clears the remembered slots and sends the wakeup NUL. Either may come at any point of a run. */
  datatype Input = Report(bytes: seq<u8>) | Entered
  {
    predicate Full() {
      Report? && |bytes| >= 3
    }
  }

  /** The slots in force after some inputs: those of the last report of at least three bytes since the last
      clearing. */
  function KeysAfter(start: Keys, inputs: seq<Input>): Keys {
    if inputs == [] then start
    else
      var last := inputs[|inputs| - 1];
      if last.Entered? then NO_KEYS
      else if last.Full() then Slots(last.bytes)
      else KeysAfter(start, inputs[..|inputs| - 1])
  }

  /** Everything emitted over a run. */
  function EmittedBy(start: Keys, inputs: seq<Input>): string {
    if inputs == [] then ""
    else
      var n := |inputs| - 1;
      EmittedBy(start, inputs[..n])
      + match inputs[n]
        case Entered => "\0"
        case Report(r) =>
          if |r| < 3 then "" else TranslateAll(Edges(Slots(r), KeysAfter(start, inputs[..n]), 6), r[0])
  }

  method RunInputs(t: Translator, inputs: seq<Input>) returns (emitted: string)
    requires t.Valid()
    modifies t.prevKeys
    ensures emitted == EmittedBy(old(t.Prev()), inputs)
    ensures t.Prev() == KeysAfter(old(t.Prev()), inputs)
  {
    ghost var start := t.Prev();
    emitted := "";
    assert inputs[..0] == [];
    for n := 0 to |inputs|
      invariant emitted == EmittedBy(start, inputs[..n])
      invariant t.Prev() == KeysAfter(start, inputs[..n])
    {
      assert inputs[..n + 1][..n] == inputs[..n];
      var out: string;
      match inputs[n] {
        case Entered =>
          t.Reset();
          out := "\0";
        case Report(r) =>
          out := t.TranslateReport(r);
      }
      emitted := emitted + out;
    }
    assert inputs[..|inputs|] == inputs;
  }

  function Occurrences(codes: seq<u8>, code: u8): nat {
    if codes == [] then 0
    else Occurrences(codes[..|codes| - 1], code) + if codes[|codes| - 1] == code then 1 else 0
  }

  lemma OccursSnoc(codes: seq<u8>, c: u8, code: u8)
    ensures Occurrences(codes + [c], code) == Occurrences(codes, code) + if c == code then 1 else 0
  {
    assert (codes + [c])[..|codes|] == codes;
  }

  /** Within one report: a code that was not held is translated once per slot it fills, one that was, never. */
  lemma {:induction false} EdgeCount(cur: seq<u8>, prev: seq<u8>, n: nat, code: u8)
    requires n <= |cur| && code != 0
    ensures Occurrences(Edges(cur, prev, n), code) == if Pressed(prev, code) then 0 else Occurrences(cur[..n], code)
  {
    if n == 0 {
      assert cur[..0] == [];
    } else {
      EdgeCount(cur, prev, n - 1, code);
      assert cur[..n][..n - 1] == cur[..n - 1];
      OccursSnoc(Edges(cur, prev, n - 1), cur[n - 1], code);
      if cur[n - 1] == code && Pressed(prev, code) {
        assert Edges(cur, prev, n) == Edges(cur, prev, n - 1);
      }
    }
  }

  /** How often a code is translated over a run. */
  function Translations(start: Keys, inputs: seq<Input>, code: u8): nat {
    if inputs == [] then 0
    else
      var n := |inputs| - 1;
      Translations(start, inputs[..n], code)
      + if !inputs[n].Full() then 0
        else Occurrences(Edges(Slots(inputs[n].bytes), KeysAfter(start, inputs[..n]), 6), code)
  }

  /** Input n presses the code anew: a report of at least three bytes holds it, the slots in force do not. */
  predicate PressesAt(start: Keys, inputs: seq<Input>, n: nat, code: u8)
    requires n < |inputs|
  {
    && inputs[n].Full()
    && Pressed(Slots(inputs[n].bytes), code) && !Pressed(KeysAfter(start, inputs[..n]), code)
  }

  /** How often a code goes from absent to present. */
  function Presses(start: Keys, inputs: seq<Input>, code: u8): nat {
    if inputs == [] then 0
    else
      var n := |inputs| - 1;
      Presses(start, inputs[..n], code) + if PressesAt(start, inputs, n, code) then 1 else 0
  }

  /** In how many slots an input holds the code. */
  function Fills(x: Input, code: u8): nat {
    if x.Full() then Occurrences(Slots(x.bytes), code) else 0
  }

  /** A report that presses the code anew holds it in one slot only. */
  predicate SinglePresses(start: Keys, inputs: seq<Input>, code: u8) {
    forall n :: 0 <= n < |inputs| && PressesAt(start, inputs, n, code)
                ==> Fills(inputs[n], code) == 1
  }

  lemma {:induction false} OccursIffPressed(keys: seq<u8>, code: u8)
    ensures Occurrences(keys, code) > 0 <==> Pressed(keys, code)
    decreases |keys|
  {
    if keys != [] {
      var n := |keys| - 1;
      OccursIffPressed(keys[..n], code);
      if Pressed(keys, code) && keys[n] != code {
        var j :| 0 <= j < |keys| && keys[j] == code;
        assert keys[..n][j] == code;
      }
      if Pressed(keys[..n], code) {
        var j :| 0 <= j < n && keys[..n][j] == code;
        assert keys[j] == code;
      }
    }
  }

  lemma LastInput(start: Keys, inputs: seq<Input>, code: u8)
    requires inputs != [] && code != 0
    ensures var n := |inputs| - 1;
            if PressesAt(start, inputs, n, code) then
              && Translations(start, inputs, code)
              == Translations(start, inputs[..n], code) + Fills(inputs[n], code)
              && Presses(start, inputs, code) == Presses(start, inputs[..n], code) + 1
              && Fills(inputs[n], code) >= 1
            else
              && Translations(start, inputs, code) == Translations(start, inputs[..n], code)
              && Presses(start, inputs, code) == Presses(start, inputs[..n], code)
  {
    var n := |inputs| - 1;
    if inputs[n].Full() {
      var slots := Slots(inputs[n].bytes);
      EdgeCount(slots, KeysAfter(start, inputs[..n]), 6, code);
      assert slots[..6] == slots;
      OccursIffPressed(slots, code);
    }
  }

  lemma {:induction false} NeverFewer(start: Keys, inputs: seq<Input>, code: u8)
    requires code != 0
    ensures Translations(start, inputs, code) >= Presses(start, inputs, code)
    decreases |inputs|
  {
    if inputs != [] {
      LastInput(start, inputs, code);
      NeverFewer(start, inputs[..|inputs| - 1], code);
    }
  }

  lemma PressesPrefix(start: Keys, inputs: seq<Input>, n: nat, k: nat, code: u8)
    requires k < n <= |inputs|
    ensures inputs[..n][k] == inputs[k] && PressesAt(start, inputs[..n], k, code) == PressesAt(start, inputs, k, code)
  {
    assert inputs[..n][..k] == inputs[..k];
  }

  lemma SinglePrefix(start: Keys, inputs: seq<Input>, code: u8)
    requires inputs != []
    ensures var n := |inputs| - 1;
            SinglePresses(start, inputs, code) <==>
              && SinglePresses(start, inputs[..n], code)
              && (PressesAt(start, inputs, n, code) ==> Fills(inputs[n], code) == 1)
  {
    var n := |inputs| - 1;
    hide PressesAt;
    if SinglePresses(start, inputs, code) {
      forall k | 0 <= k < n && PressesAt(start, inputs[..n], k, code)
        ensures Fills(inputs[..n][k], code) == 1
      {
        PressesPrefix(start, inputs, n, k, code);
      }
    }
    if SinglePresses(start, inputs[..n], code) {
      forall k | 0 <= k < n && PressesAt(start, inputs, k, code)
        ensures Fills(inputs[k], code) == 1
      {
        PressesPrefix(start, inputs, n, k, code);
      }
    }
  }

  /** Over any run, a key code is translated exactly once per absent-to-present transition, precisely when
      no report that presses it anew repeats it in a second slot. */
  lemma {:induction false} OncePerPress(start: Keys, inputs: seq<Input>, code: u8)
    requires code != 0
    ensures Translations(start, inputs, code) == Presses(start, inputs, code) <==> SinglePresses(start, inputs, code)
    decreases |inputs|
  {
    if inputs != [] {
      hide PressesAt, SinglePresses;
      var n := |inputs| - 1;
      LastInput(start, inputs, code);
      OncePerPress(start, inputs[..n], code);
      NeverFewer(start, inputs[..n], code);
      SinglePrefix(start, inputs, code);
    }
  }

  /** Short reports are invisible: dropping them changes neither what is emitted nor what is held. */
  lemma ShortReportIgnored(start: Keys, inputs: seq<Input>, short: seq<u8>)
    requires |short| < 3
    ensures EmittedBy(start, inputs + [Report(short)]) == EmittedBy(start, inputs)
    ensures KeysAfter(start, inputs + [Report(short)]) == KeysAfter(start, inputs)
  {
    assert (inputs + [Report(short)])[..|inputs|] == inputs;
  }
}
