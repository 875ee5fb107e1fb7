/** The list of scanned keyboards, filled by the scan callback (src/bt_kbd.c:61-62, 200-238, 424-428). */
module ScanList {
  import opened HidTypes

  const MAX_DEVICES: nat := 8
  const NAME_MAX: nat := 32

  type Address = s: seq<u8> | |s| == 6 witness [0, 0, 0, 0, 0, 0]

  function Zeros(n: nat): (s: seq<u8>)
    ensures |s| == n && forall i :: 0 <= i < n ==> s[i] == 0
  {
    if n == 0 then [] else Zeros(n - 1) + [0]
  }

  type Name = s: seq<u8> | |s| == NAME_MAX + 1 witness Zeros(NAME_MAX + 1)

  datatype Device = Device(addr: Address, addrType: u8, name: Name, rssi: int)

  const NO_NAME: Name := Zeros(NAME_MAX + 1)
  const NO_DEVICE := Device([0, 0, 0, 0, 0, 0], 0, NO_NAME, 0)

  /** A discovery event: whether it is a connectable advertisement, whether its fields parse, and what
      they hold. The name carries no terminator. */
  datatype Advert = Advert(connectable: bool, parsed: bool, addr: Address, addrType: u8, name: seq<u8>, rssi: int)
  {
    predicate Usable() {
      connectable && parsed && name != []
    }
  }

  /** The first n bytes of a name copied over a buffer, and a terminator. */
  function CopyName(buffer: Name, name: seq<u8>): Name {
    var n := if |name| < NAME_MAX then |name| else NAME_MAX;
    name[..n] + [0] + buffer[n + 1..]
  }

  function NewDevice(a: Advert): Device {
    Device(a.addr, a.addrType, CopyName(NO_NAME, a.name), a.rssi)
  }

  // ---- specification ----

  /** The first position holding an address, |list| when there is none. */
  function Find(list: seq<Device>, addr: Address): (i: nat)
    ensures i <= |list|
    ensures i < |list| ==> list[i].addr == addr
    ensures forall j :: 0 <= j < i ==> list[j].addr != addr
  {
    if list == [] then 0
    else
      var n := |list| - 1;
      var i := Find(list[..n], addr);
      if i < n then i else if list[n].addr == addr then n else |list|
  }

  lemma FindIs(list: seq<Device>, addr: Address, i: nat)
    requires i <= |list| && (i < |list| ==> list[i].addr == addr)
    requires forall j :: 0 <= j < i ==> list[j].addr != addr
    ensures Find(list, addr) == i
  {
  }

  function Collect(list: seq<Device>, a: Advert): seq<Device> {
    if !a.Usable() then list
    else
      var i := Find(list, a.addr);
      if i < |list| then list[i := list[i].(rssi := a.rssi)]
      else if |list| < MAX_DEVICES then list + [NewDevice(a)]
      else list
  }

  predicate Terminated(name: Name) {
    exists i :: 0 <= i < |name| && name[i] == 0
  }

  predicate WellFormed(list: seq<Device>) {
    && |list| <= MAX_DEVICES
    && (forall i, j :: 0 <= i < j < |list| ==> list[i].addr != list[j].addr)
    && (forall i :: 0 <= i < |list| ==> Terminated(list[i].name))
  }

  predicate SameDevice(d: Device, e: Device) {
    d.addr == e.addr && d.addrType == e.addrType && d.name == e.name
  }

  /** b is a with signal strengths refreshed and perhaps more devices at the end. */
  predicate Extends(a: seq<Device>, b: seq<Device>) {
    && |a| <= |b|
    && (forall i :: 0 <= i < |a| ==> SameDevice(a[i], b[i]))
  }

  lemma ExtendsTransitive(a: seq<Device>, b: seq<Device>, c: seq<Device>)
    requires Extends(a, b) && Extends(b, c)
    ensures Extends(a, c)
  {
    forall i | 0 <= i < |a|
      ensures SameDevice(a[i], c[i])
    {
      assert SameDevice(a[i], b[i]);
    }
  }

  lemma CopyTerminates(buffer: Name, name: seq<u8>)
    ensures Terminated(CopyName(buffer, name))
  {
    var n := if |name| < NAME_MAX then |name| else NAME_MAX;
    assert CopyName(buffer, name)[n] == 0;
  }

  /** A new device is listed at the end with the address, its type and the strength it was heard with, and the first 32
      bytes of its name, ended by a NUL. */
  lemma NewDeviceListed(list: seq<Device>, a: Advert)
    requires a.Usable() && Find(list, a.addr) == |list| && |list| < 8
    ensures var l := Collect(list, a);
            && |l| == |list| + 1 && l[..|list|] == list
            && l[|list|].addr == a.addr && l[|list|].addrType == a.addrType && l[|list|].rssi == a.rssi
    ensures var name := Collect(list, a)[|list|].name;
            && |name| == 33
            && (|a.name| <= 32 ==> name[..|a.name|] == a.name && name[|a.name|] == 0)
            && (|a.name| >= 32 ==> name[..32] == a.name[..32] && name[32] == 0)
  {
  }

  /** An advertisement that is not connectable, does not parse or has no name is ignored, and so is a new device when
      eight are listed. */
  lemma AdvertIgnored(list: seq<Device>, a: Advert)
    requires !a.connectable || !a.parsed || a.name == [] || (Find(list, a.addr) == |list| && |list| >= 8)
    ensures Collect(list, a) == list
  {
  }

  /** One advertisement: the list stays well formed and only grows at its end; the advertised device is
      listed with its latest strength unless the list is full without it. */
  lemma CollectKeeps(list: seq<Device>, a: Advert)
    requires WellFormed(list)
    ensures WellFormed(Collect(list, a)) && Extends(list, Collect(list, a))
    ensures var l := Collect(list, a);
            a.Usable() ==> var i := Find(l, a.addr);
                           if i < |l| then l[i].rssi == a.rssi else |list| == MAX_DEVICES
  {
    CopyTerminates(NO_NAME, a.name);
    var i, l := Find(list, a.addr), Collect(list, a);
    if a.Usable() && (i < |list| || |list| < MAX_DEVICES) {
      assert l[i].addr == a.addr && l[i].rssi == a.rssi;
    }
  }

  // ---- the array and its count ----

  class ScanTable {
    const devs: array<Device>
    var count: nat

    ghost predicate Valid()
      reads this, devs
    {
      && devs.Length == MAX_DEVICES && count <= MAX_DEVICES
      && (forall i :: count <= i < MAX_DEVICES ==> devs[i] == NO_DEVICE)
    }

    ghost function Contents(): seq<Device>
      reads this, devs
      requires Valid()
    {
      devs[..count]
    }

    constructor ()
      ensures Valid() && Contents() == [] && fresh(devs)
    {
      devs := new Device[MAX_DEVICES](_ => NO_DEVICE);
      count := 0;
    }

    method Reset()
      requires devs.Length == MAX_DEVICES
      modifies this, devs
      ensures Valid() && Contents() == []
    {
      count := 0;
      forall i | 0 <= i < MAX_DEVICES {
        devs[i] := NO_DEVICE;
      }
    }

    /** collect_scan_cb, between taking and giving the mutex. */
    method CollectScan(a: Advert)
      requires Valid()
      modifies this, devs
      ensures Valid() && Contents() == Collect(old(Contents()), a)
    {
      if !a.connectable || !a.parsed || |a.name| == 0 {
        return;
      }
      hide Find, CopyName;
      ghost var before := Contents();
      for i := 0 to count
        invariant forall k :: 0 <= k < i ==> devs[k].addr != a.addr
        invariant Valid() && Contents() == before && count == |before|
      {
        if devs[i].addr == a.addr {
          FindIs(before, a.addr, i);
          devs[i] := devs[i].(rssi := a.rssi);
          assert Contents() == before[i := before[i].(rssi := a.rssi)];
          return;
        }
      }
      FindIs(before, a.addr, |before|);
      if count < MAX_DEVICES {
        var dev := devs[count];
        dev := dev.(addr := a.addr, addrType := a.addrType);
        dev := dev.(name := CopyName(dev.name, a.name));
        dev := dev.(rssi := a.rssi);
        devs[count] := dev;
        count := count + 1;
        assert Contents() == before + [NewDevice(a)];
      }
    }

    /** The copy handed to the application. */
    method Snapshot() returns (copy: seq<Device>)
      requires Valid()
      ensures copy == Contents()
    {
      copy := devs[..count];
    }
  }
}
