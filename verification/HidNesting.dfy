/** The eight-bit collection depth: how far it follows the nesting of the descriptor, and where it stops
    (esp_hid/src/esp_hid_common.c:49, 257, 302-322; HID 1.11 section 6.2.2.6). */
module HidNesting {
  import opened HidTypes
  import opened ShortItems
  import opened HidReference
  import opened HidMachine
  import opened HidRefinement

  predicate Below256(b: seq<Item>, k: nat)
    requires k <= |b|
  {
    forall j :: 0 <= j <= k ==> Balance(b, j) <= 255
  }

  /** The depth variable before item k of a collection is the number of open collections modulo 256;
      while at most 255 are open it is exactly that number, and never 0 inside the collection. */
  lemma DepthIsBalance(m: Machine, b: seq<Item>, k: nat, page: u16, usage: u16)
    requires k <= |b| && NeverCloses(b) && Fits(m, CutsUpTo(b, k, page, usage).groups) && Fits(m, [])
    ensures var r := Run(StateAt(m, b, 0, page, usage), b[..k]);
            && r.ok && r.machine.step == WaitEndCollection
            && r.machine.depth == Low8(Balance(b, k))
            && (Below256(b, k) ==> r.machine.depth == Balance(b, k) >= 1)
  {
    hide Run, CutsUpTo, ParamsAt, SizeAt, CountAt, Committed, Fits, Overflowed, Balance, Low8, ClosesAt;
    RunBody(m, b, k, page, usage);
    if Below256(b, k) {
      StaysOpen(b, k);
      ByteIsItself(Balance(b, k));
    }
  }

  lemma ByteIsItself(x: int)
    requires 0 <= x <= 255
    ensures Low8(x) == x
  {
  }

  predicate AtMost256(b: seq<Item>, p: nat)
    requires p <= |b|
  {
    forall k :: 0 <= k <= p ==> Balance(b, k) <= 256
  }

  lemma {:induction false} StaysOpen(b: seq<Item>, k: nat)
    requires k <= |b|
    requires forall j :: 0 <= j < k ==> !ClosesAt(b, j)
    ensures Balance(b, k) >= 1
  {
    hide ClosesAt;
    if k > 0 {
      StaysOpen(b, k - 1);
      if Balance(b, k) == 0 {
        ZeroCloses(b, k - 1);
      }
    }
  }

  lemma ZeroCloses(b: seq<Item>, k: nat)
    requires k < |b| && b[k].tag == RM_END_COLLECTION && Balance(b, k + 1) == 0
    ensures ClosesAt(b, k)
  {
  }

  /** The End Collection that really matches the application collection. */
  predicate MatchesAt(b: seq<Item>, k: nat)
    requires k < |b|
  {
    b[k].tag == RM_END_COLLECTION && Balance(b, k + 1) == 0
  }

  function MatchFrom(b: seq<Item>, k: nat): (c: nat)
    requires k <= |b|
    ensures k <= c <= |b|
    ensures c < |b| ==> MatchesAt(b, c)
    ensures forall j :: k <= j < c ==> !MatchesAt(b, j)
    decreases |b| - k
  {
    if k == |b| || MatchesAt(b, k) then k else MatchFrom(b, k + 1)
  }

  lemma ClosesAtMatch(b: seq<Item>)
    ensures CloseFrom(b, 0) <= MatchFrom(b, 0)
    ensures CloseFrom(b, 0) == MatchFrom(b, 0) <==> forall j :: 0 <= j < MatchFrom(b, 0) ==> !ClosesAt(b, j)
  {
    var c, p := CloseFrom(b, 0), MatchFrom(b, 0);
    assert p < |b| ==> ClosesAt(b, p);
  }

  /** On its way down from more than 256 open collections, the balance passes from 257 to 256, and there the
      application collection is closed. */
  lemma {:induction false} DescentCloses(b: seq<Item>, k: nat, p: nat) returns (j: nat)
    requires k <= p <= |b| && Balance(b, k) > 256 && Balance(b, p) <= 256
    ensures k <= j < p && Balance(b, j) == 257 && ClosesAt(b, j)
    decreases p - k
  {
    if Balance(b, k + 1) <= 256 {
      j := k;
    } else {
      j := DescentCloses(b, k + 1, p);
    }
  }

  lemma CloseOfOne(b: seq<Item>, c: nat)
    requires c < |b| && ClosesAt(b, c) && 1 <= Balance(b, c) <= 256
    ensures MatchesAt(b, c)
  {
  }

  /** The exact condition: a collection that has a matching End Collection is closed there exactly when it
      nests at most 256 deep, itself included, up to that item. */
  lemma ClosesAtMatchIffShallow(b: seq<Item>)
    requires MatchFrom(b, 0) < |b|
    ensures CloseFrom(b, 0) == MatchFrom(b, 0) <==> AtMost256(b, MatchFrom(b, 0))
  {
    var p := MatchFrom(b, 0);
    ClosesAtMatch(b);
    if k :| 0 <= k <= p && Balance(b, k) > 256 {
      var j := DescentCloses(b, k, p);
    } else if CloseFrom(b, 0) < p {
      StaysOpen(b, CloseFrom(b, 0));
      CloseOfOne(b, CloseFrom(b, 0));
    }
  }

  const OPEN := Item(RM_COLLECTION, [0])

  function Deep(): seq<Item> { seq(256, _ => OPEN) + [END] }

  lemma {:induction false} DeepBalance(k: nat)
    requires k <= 256
    ensures Balance(Deep(), k) == 1 + k
  {
    if k > 0 {
      DeepBalance(k - 1);
    }
  }

  /** With 256 collections nested in the application collection, the first End Collection already closes it,
      although 256 collections are still open. */
  lemma DeepClosesEarly()
    ensures CloseFrom(Deep(), 0) == 256 && MatchFrom(Deep(), 0) == 257 && Balance(Deep(), 257) == 256
  {
    DeepEnd();
    forall k: nat | k < 256
      ensures !ClosesAt(Deep(), k) && !MatchesAt(Deep(), k)
    {
      DeepOpen(k);
    }
    hide Deep, ClosesAt, MatchesAt, Balance;
  }

  lemma DeepOpen(k: nat)
    requires k < 256
    ensures !ClosesAt(Deep(), k) && !MatchesAt(Deep(), k)
  {
    assert Deep()[k] == OPEN;
    hide Balance;
  }

  lemma DeepEnd()
    ensures |Deep()| == 257 && Balance(Deep(), 257) == 256
    ensures ClosesAt(Deep(), 256) && !MatchesAt(Deep(), 256)
  {
    DeepBalance(256);
    assert Deep()[256] == END;
  }

  // ---- whole descriptors, split at the matching End Collections ----

  function SplitMatched(items: seq<Item>): Layout
    decreases |items|
  {
    if items == [] then Layout([], Between)
    else if items[0].tag != RM_USAGE_PAGE then Layout([], Malformed)
    else if |items| == 1 then Layout([], Inside)
    else if items[1].tag != RM_USAGE then Layout([], Malformed)
    else if |items| == 2 then Layout([], Inside)
    else if items[2].tag != RM_COLLECTION || items[2].Value() != 1 then Layout([], Malformed)
    else
      var page, usage, rest := Low16(items[0].Value()), Low16(items[1].Value()), items[3..];
      var c := MatchFrom(rest, 0);
      if c == |rest| then Layout([Application(page, usage, rest, false)], Inside)
      else
        var l := SplitMatched(rest[c + 1..]);
        Layout([Application(page, usage, rest[..c], true)] + l.applications, l.ending)
  }

  /** The condition for one body: up to its matching End Collection it nests at most 256 deep, itself included;
      where it is never matched, no End Collection leaves a multiple of 256 collections open. */
  predicate ShallowBody(b: seq<Item>) {
    if MatchFrom(b, 0) < |b| then AtMost256(b, MatchFrom(b, 0)) else NeverCloses(b)
  }

  /** Every application collection of the items is shallow. */
  predicate Shallow(items: seq<Item>)
    decreases |items|
  {
    HasHeader(items) ==>
      var rest := items[3..];
      var p := MatchFrom(rest, 0);
      ShallowBody(rest) && (p < |rest| ==> Shallow(rest[p + 1..]))
  }

  lemma ShallowBodyCloses(b: seq<Item>)
    ensures CloseFrom(b, 0) == MatchFrom(b, 0) <==> ShallowBody(b)
  {
    ClosesAtMatch(b);
    if MatchFrom(b, 0) < |b| {
      ClosesAtMatchIffShallow(b);
    }
  }

  lemma HeadsDiffer(a: Application, x: seq<Application>, b: Application, y: seq<Application>)
    ensures [a] + x == [b] + y <==> a == b && x == y
  {
    assert ([a] + x)[0] == a && ([b] + y)[0] == b;
    assert ([a] + x)[1..] == x && ([b] + y)[1..] == y;
  }

  /** The first application as its matching End Collection ends it, and the rest of the items. */
  function FirstMatched(items: seq<Item>): Application
    requires HasHeader(items)
  {
    var rest := items[3..];
    var p := MatchFrom(rest, 0);
    Application(Low16(items[0].Value()), Low16(items[1].Value()), rest[..p], p < |rest|)
  }

  function AfterMatched(items: seq<Item>): (r: seq<Item>)
    requires HasHeader(items) && FirstMatched(items).closed
    ensures |r| < |items|
  {
    items[3..][MatchFrom(items[3..], 0) + 1..]
  }

  lemma SplitMatchedFirst(items: seq<Item>)
    ensures HasHeader(items) ==>
              var a := FirstMatched(items);
              SplitMatched(items) == if !a.closed then Layout([a], Inside)
                                     else var l := SplitMatched(AfterMatched(items));
                                          Layout([a] + l.applications, l.ending)
    ensures !HasHeader(items) ==> SplitMatched(items) == Split(items)
  {
    if HasHeader(items) {
      assert items[3..][..|items[3..]|] == items[3..];
    }
  }

  lemma ShallowFirst(items: seq<Item>)
    requires HasHeader(items)
    ensures Shallow(items) <==>
              ShallowBody(items[3..]) && (FirstMatched(items).closed ==> Shallow(AfterMatched(items)))
  {
    hide ShallowBody;
  }

  /** The two first applications are the same exactly when the first body is shallow. */
  lemma SameFirst(items: seq<Item>)
    requires HasHeader(items)
    ensures FirstApplication(items) == FirstMatched(items) <==> ShallowBody(items[3..])
    ensures FirstApplication(items) == FirstMatched(items) && FirstMatched(items).closed ==>
              AfterFirst(items) == AfterMatched(items)
  {
    var rest := items[3..];
    ClosesAtMatch(rest);
    ShallowBodyCloses(rest);
    assert |FirstApplication(items).body| == CloseFrom(rest, 0) && |FirstMatched(items).body| == MatchFrom(rest, 0);
  }

  /** The parser splits a descriptor where its collections really end exactly when they nest at most 256
      deep, for every list of items. */
  lemma {:induction false} SplitMatchedIffShallow(items: seq<Item>)
    ensures Split(items) == SplitMatched(items) <==> Shallow(items)
    decreases |items|
  {
    hide *;
    SplitFirst(items);
    SplitMatchedFirst(items);
    if HasHeader(items) {
      var a, b := FirstApplication(items), FirstMatched(items);
      SameFirst(items);
      ShallowFirst(items);
      var x := if a.closed then Split(AfterFirst(items)).applications else [];
      var y := if b.closed then SplitMatched(AfterMatched(items)).applications else [];
      assert [a] + [] == [a] && [b] + [] == [b];
      HeadsDiffer(a, x, b, y);
      if a == b && b.closed {
        SplitMatchedIffShallow(AfterMatched(items));
      }
    } else {
      NoHeaderShallow(items);
    }
  }

  lemma NoHeaderShallow(items: seq<Item>)
    requires !HasHeader(items)
    ensures Shallow(items)
  {
  }
}
