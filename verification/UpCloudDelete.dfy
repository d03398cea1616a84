/**
 Deleting an UpCloud server (`_delete_vms`): stop it, wait, detach the disks that are not its own, and
 delete it with the one that is.

 The API answers as it likes, and any request may fail; the trace holds every server state seen and
 every request made, whether it failed or not.
 */
module UpCloudDelete {
  import opened Wrappers

  const STOP_TIMEOUT := 120
  const POLL_INTERVAL := 5
  const POLLS: nat := STOP_TIMEOUT / POLL_INTERVAL + 1

  /** A storage device; the fields the API may leave out are options. */
  datatype Device = Device(kind: Option<string>, bootDisk: Option<string>, partOfPlan: Option<string>,
                           address: Option<string>, storage: Option<string>)

  datatype Server = Server(state: Option<string>, devices: seq<Device>)

  // --- The system disk ------------------------------------------------------------------------------

  predicate IsDisk(d: Device) {
    d.kind.None? || d.kind == Some("disk")
  }

  /** str() of an address: that of none is None. */
  function AddressText(d: Device): string {
    if d.address.Some? then d.address.value else "None"
  }

  predicate Less(a: string, b: string) {
    b != [] && (a == [] || a[0] < b[0] || (a[0] == b[0] && Less(a[1..], b[1..])))
  }

  predicate IsBootDisk(d: Device) {
    d.bootDisk == Some("1")
  }

  predicate IsPartOfPlan(d: Device) {
    d.partOfPlan == Some("yes")
  }

  /** The first disk with a sign. */
  function First(devices: seq<Device>, sign: Device -> bool): (i: Option<nat>)
    ensures i.Some? ==> i.value < |devices|
  {
    if devices == [] then None
    else
      var n := |devices| - 1;
      var earlier := First(devices[..n], sign);
      if earlier.Some? then earlier else if IsDisk(devices[n]) && sign(devices[n]) then Some(n) else None
  }

  /** The disk with the lowest address. */
  function Lowest(devices: seq<Device>): (i: Option<nat>)
    ensures i.Some? ==> i.value < |devices|
  {
    if devices == [] then None
    else
      var n := |devices| - 1;
      var earlier := Lowest(devices[..n]);
      if !IsDisk(devices[n]) then earlier
      else if earlier.None? || Less(AddressText(devices[n]), AddressText(devices[earlier.value])) then Some(n)
      else earlier
  }

  /** The disk a server was created with, by its place among the devices. */
  function SystemDisk(devices: seq<Device>): (i: Option<nat>)
    ensures i.Some? ==> i.value < |devices|
  {
    var boot, plan := First(devices, IsBootDisk), First(devices, IsPartOfPlan);
    if boot.Some? then boot else if plan.Some? then plan else Lowest(devices)
  }

  lemma {:induction false} FirstIs(devices: seq<Device>, sign: Device -> bool)
    ensures var i := First(devices, sign);
            && (i.None? <==> forall k :: 0 <= k < |devices| ==> !(IsDisk(devices[k]) && sign(devices[k])))
            && (i.Some? ==> i.value < |devices| && IsDisk(devices[i.value]) && sign(devices[i.value])
                            && forall k :: 0 <= k < i.value ==> !(IsDisk(devices[k]) && sign(devices[k])))
  {
    if devices != [] { FirstIs(devices[..|devices| - 1], sign); }
  }

  lemma {:induction false} LessIsAsymmetric(a: string, b: string)
    requires Less(a, b)
    ensures !Less(b, a)
  {
    if a != [] && a[0] == b[0] { LessIsAsymmetric(a[1..], b[1..]); }
  }

  /** In the order of strings: where they first differ, by the character there, and a beginning before
      what goes on. */
  lemma {:induction false} LessIsLexicographic(a: string, b: string)
    ensures Less(a, b)
            <==> exists n :: 0 <= n <= |a| && n < |b| && a[..n] == b[..n] && (n == |a| || a[n] < b[n])
  {
    if a != [] && b != [] && a[0] == b[0] {
      LessIsLexicographic(a[1..], b[1..]);
      if n :| 0 <= n <= |a[1..]| && n < |b[1..]| && a[1..][..n] == b[1..][..n]
              && (n == |a[1..]| || a[1..][n] < b[1..][n]) {
        assert a[..n + 1] == [a[0]] + a[1..][..n] && b[..n + 1] == [b[0]] + b[1..][..n];
      }
      if n :| 0 <= n <= |a| && n < |b| && a[..n] == b[..n] && (n == |a| || a[n] < b[n]) {
        assert n > 0 && a[1..][..n - 1] == a[..n][1..] && b[1..][..n - 1] == b[..n][1..];
      }
    } else {
      if a == [] || (b != [] && a[0] < b[0]) { assert a[..0] == b[..0]; }
      forall n | 0 < n <= |a| && n < |b| ensures a[..n] != b[..n] {
        assert a[..n][0] == a[0] && b[..n][0] == b[0];
      }
    }
  }

  /** No disk is below it, and those before it are above. */
  ghost predicate IsLowest(devices: seq<Device>, i: nat) {
    && i < |devices| && IsDisk(devices[i])
    && (forall k :: 0 <= k < |devices| && IsDisk(devices[k]) ==>
        !Less(AddressText(devices[k]), AddressText(devices[i])))
    && (forall k :: 0 <= k < i && IsDisk(devices[k]) ==> Less(AddressText(devices[i]), AddressText(devices[k])))
  }

  lemma {:induction false} LowestIs(devices: seq<Device>)
    ensures Lowest(devices).None? <==> forall k :: 0 <= k < |devices| ==> !IsDisk(devices[k])
    ensures Lowest(devices).Some? ==> IsLowest(devices, Lowest(devices).value)
  {
    hide Less;
    if devices != [] {
      var n := |devices| - 1;
      var init := devices[..n];
      LowestIs(init);
      if IsDisk(devices[n]) {
        LessIsIrreflexive(AddressText(devices[n]));
        if Lowest(init).Some? { LowestOfTwo(init, AddressText(devices[n]), Lowest(init).value); }
      }
    }
  }

  lemma {:induction false} LessIsIrreflexive(a: string)
    ensures !Less(a, a)
  {
    if a != [] { LessIsIrreflexive(a[1..]); }
  }

  /** Below the lowest is below them all. */
  lemma LowestOfTwo(devices: seq<Device>, address: string, i: nat)
    requires i < |devices|
    requires forall k :: 0 <= k < |devices| && IsDisk(devices[k]) ==>
               !Less(AddressText(devices[k]), AddressText(devices[i]))
    ensures Less(address, AddressText(devices[i])) ==>
              forall k :: 0 <= k < |devices| && IsDisk(devices[k]) ==>
                Less(address, AddressText(devices[k])) && !Less(AddressText(devices[k]), address)
  {
    hide Less;
    if Less(address, AddressText(devices[i])) {
      forall k | 0 <= k < |devices| && IsDisk(devices[k])
        ensures Less(address, AddressText(devices[k])) && !Less(AddressText(devices[k]), address)
      {
        LessIsTotal(address, AddressText(devices[i]), AddressText(devices[k]));
        LessIsAsymmetric(address, AddressText(devices[k]));
      }
    }
  }

  lemma {:induction false} LessIsTotal(a: string, b: string, c: string)
    requires Less(a, b) && !Less(c, b)
    ensures Less(a, c)
  {
    if a != [] && c != [] && a[0] == b[0] && b[0] == c[0] { LessIsTotal(a[1..], b[1..], c[1..]); }
  }

  ghost predicate HasDisk(devices: seq<Device>) {
    exists k :: 0 <= k < |devices| && IsDisk(devices[k])
  }

  /** The places of the disks: devices said to be one, or not said to be anything. */
  ghost function DisksAt(devices: seq<Device>): set<nat> {
    set k: nat | k < |devices| && devices[k].kind in {None, Some("disk")}
  }

  /** The address of a device as it is compared: one without is "None". */
  ghost predicate HasAddress(d: Device, address: string) {
    d.address == Some(address) || (d.address == None && address == "None")
  }

  /** The system disk is the first named the boot disk; or else the first that came with the plan; or
      else the first of those with the lowest address. There is one whenever there is a disk. */
  lemma SystemDiskIs(devices: seq<Device>)
    ensures SystemDisk(devices).Some? <==> DisksAt(devices) != {}
    ensures SystemDisk(devices).Some? ==>
              var i, disks := SystemDisk(devices).value, DisksAt(devices);
              && i in disks
              && (if exists k :: k in disks && devices[k].bootDisk == Some("1") then
                    devices[i].bootDisk == Some("1")
                    && forall k :: k in disks && k < i ==> devices[k].bootDisk != Some("1")
                  else if exists k :: k in disks && devices[k].partOfPlan == Some("yes") then
                    devices[i].partOfPlan == Some("yes")
                    && forall k :: k in disks && k < i ==> devices[k].partOfPlan != Some("yes")
                  else
                    forall k, a, b :: k in disks && HasAddress(devices[k], a) && HasAddress(devices[i], b) ==>
                      !Less(a, b) && (k < i ==> Less(b, a)))
  {
    hide Less;
    SystemDiskChosen(devices);
    assert forall k: nat :: k < |devices| ==> (k in DisksAt(devices) <==> IsDisk(devices[k]));
    assert forall d: Device, a: string :: HasAddress(d, a) <==> a == AddressText(d);
    hide SystemDisk, DisksAt, IsDisk, AddressText, HasAddress;
  }

  lemma SystemDiskChosen(devices: seq<Device>)
    ensures SystemDisk(devices).Some? <==> HasDisk(devices)
    ensures SystemDisk(devices).Some? ==>
              var i := SystemDisk(devices).value;
              && i < |devices| && IsDisk(devices[i])
              && (if exists k :: 0 <= k < |devices| && IsDisk(devices[k]) && IsBootDisk(devices[k]) then
                    IsBootDisk(devices[i]) && forall k :: 0 <= k < i ==> !(IsDisk(devices[k]) && IsBootDisk(devices[k]))
                  else if exists k :: 0 <= k < |devices| && IsDisk(devices[k]) && IsPartOfPlan(devices[k]) then
                    IsPartOfPlan(devices[i]) && forall k :: 0 <= k < i ==>
                        !(IsDisk(devices[k]) && IsPartOfPlan(devices[k]))
                  else IsLowest(devices, i))
  {
    hide IsLowest, First, Lowest, IsBootDisk, IsPartOfPlan;
    FirstIs(devices, IsBootDisk);
    FirstIs(devices, IsPartOfPlan);
    LowestIs(devices);
    LowestIsDisk(devices);
  }

  lemma LowestIsDisk(devices: seq<Device>)
    ensures Lowest(devices).Some? ==> IsDisk(devices[Lowest(devices).value])
  {
    LowestIs(devices);
  }

  // --- What is detached ------------------------------------------------------------------------------

  /** The disks but one, in order. */
  function Others(devices: seq<Device>, kept: Option<nat>): (others: seq<Device>)
    ensures |others| <= |devices|
  {
    if devices == [] then []
    else
      var n := |devices| - 1;
      Others(devices[..n], kept) + if IsDisk(devices[n]) && kept != Some(n) then [devices[n]] else []
  }

  function Disks(devices: seq<Device>): seq<Device> {
    Others(devices, None)
  }

  /** The others are the disks with the kept one taken out, the order kept. */
  ghost predicate AllBut(disks: seq<Device>, kept: Device, others: seq<Device>) {
    exists k :: 0 <= k < |disks| && disks[k] == kept && others == disks[..k] + disks[k + 1..]
  }

  lemma AllButGrows(disks: seq<Device>, kept: Device, others: seq<Device>, tail: seq<Device>)
    requires AllBut(disks, kept, others)
    ensures AllBut(disks + tail, kept, others + tail)
  {
    var k :| 0 <= k < |disks| && disks[k] == kept && others == disks[..k] + disks[k + 1..];
    assert (disks + tail)[..k] == disks[..k] && (disks + tail)[k + 1..] == disks[k + 1..] + tail;
    assert (disks + tail)[k] == kept;
  }

  lemma AllButLast(disks: seq<Device>, kept: Device)
    ensures AllBut(disks + [kept], kept, disks)
  {
    assert (disks + [kept])[|disks|] == kept;
    assert (disks + [kept])[..|disks|] + (disks + [kept])[|disks| + 1..] == disks;
  }

  lemma {:induction false} OthersLeaveOne(devices: seq<Device>, kept: nat)
    requires kept < |devices| && IsDisk(devices[kept])
    ensures AllBut(Disks(devices), devices[kept], Others(devices, Some(kept)))
  {
    hide AllBut;
    var n := |devices| - 1;
    var init := devices[..n];
    OthersStep(devices, None, n);
    OthersStep(devices, Some(kept), n);
    assert devices[..n + 1] == devices;
    hide Others, IsDisk;
    if kept == n {
      OthersBelow(init, n);
      AllButLast(Disks(init), devices[n]);
      assert Disks(init) + [] == Disks(init);
    } else {
      OthersLeaveOne(init, kept);
      AllButGrows(Disks(init), devices[kept], Others(init, Some(kept)),
                  if IsDisk(devices[n]) then [devices[n]] else []);
    }
  }

  lemma {:induction false} OthersBelow(devices: seq<Device>, kept: nat)
    requires kept >= |devices|
    ensures Others(devices, Some(kept)) == Disks(devices)
  {
    if devices != [] { OthersBelow(devices[..|devices| - 1], kept); }
  }

  /** Every disk but the system disk goes, and exactly that one stays - if there is any. */
  lemma ExactlyTheSystemDiskStays(devices: seq<Device>)
    ensures var system := SystemDisk(devices);
            if system.Some? then AllBut(Disks(devices), devices[system.value], Others(devices, system))
            else Disks(devices) == [] && Others(devices, system) == []
  {
    hide SystemDisk, AllBut;
    SystemDiskChosen(devices);
    if SystemDisk(devices).Some? {
      OthersLeaveOne(devices, SystemDisk(devices).value);
    } else {
      NoDisks(devices, None);
    }
  }

  lemma {:induction false} NoDisks(devices: seq<Device>, kept: Option<nat>)
    requires !HasDisk(devices)
    ensures Others(devices, kept) == []
  {
    if devices != [] {
      assert forall k :: 0 <= k < |devices| - 1 ==> devices[..|devices| - 1][k] == devices[k];
      NoDisks(devices[..|devices| - 1], kept);
    }
  }

  // --- The protocol ------------------------------------------------------------------------------------

  datatype Event = Saw(server: Server) | Stop | Detach(address: Option<string>) | Delete

  datatype Error = DidNotStop | Failed

  datatype Deleted = Deleted(stoppedFirst: bool, volumesDetached: seq<Option<string>>)

  predicate IsIn(server: Server, state: string) {
    server.state == Some(state)
  }

  predicate SeenStarted(looks: seq<Server>) {
    exists i :: 0 <= i < |looks| && IsIn(looks[i], "started")
  }

  /** What the looks at a server lead to: a stop is sent after the first that shows it started. */
  function Polling(looks: seq<Server>): seq<Event> {
    if looks == [] then []
    else
      var init, last := looks[..|looks| - 1], looks[|looks| - 1];
      Polling(init) + [Saw(last)] + if IsIn(last, "started") && !SeenStarted(init) then [Stop] else []
  }

  function Detaches(others: seq<Device>): (events: seq<Event>)
    ensures |events| == |others| && forall i :: 0 <= i < |others| ==> events[i] == Detach(others[i].address)
  {
    seq(|others|, i requires 0 <= i < |others| => Detach(others[i].address))
  }

  function Storages(others: seq<Device>): (storages: seq<Option<string>>)
    ensures |storages| == |others| && forall i :: 0 <= i < |others| ==> storages[i] == others[i].storage
  {
    seq(|others|, i requires 0 <= i < |others| => others[i].storage)
  }

  /** What follows once a server was seen stopped. */
  function Teardown(server: Server): seq<Event> {
    Detaches(Others(server.devices, SystemDisk(server.devices))) + [Delete]
  }

  function Stops(events: seq<Event>): nat {
    if events == [] then 0 else Stops(events[..|events| - 1]) + if events[|events| - 1].Stop? then 1 else 0
  }

  lemma {:induction false} StopsOfConcat(a: seq<Event>, b: seq<Event>)
    ensures Stops(a + b) == Stops(a) + Stops(b)
  {
    if b == [] {
      assert a + b == a;
    } else {
      assert (a + b)[..|a + b| - 1] == a + b[..|b| - 1];
      StopsOfConcat(a, b[..|b| - 1]);
    }
  }

  /** A stop is sent at most once, and exactly when the server was seen started. */
  lemma {:induction false} StopIsSentAtMostOnce(looks: seq<Server>)
    ensures Stops(Polling(looks)) == if SeenStarted(looks) then 1 else 0
  {
    if looks != [] {
      var init, last := looks[..|looks| - 1], looks[|looks| - 1];
      StopIsSentAtMostOnce(init);
      var tail := if IsIn(last, "started") && !SeenStarted(init) then [Stop] else [];
      StopsOfConcat(Polling(init), [Saw(last)]);
      StopsOfConcat(Polling(init) + [Saw(last)], tail);
      assert [Saw(last)][..0] == [] && [Stop][..0] == [];
      assert forall i :: 0 <= i < |init| ==> looks[i] == init[i];
      if SeenStarted(init) {
        var i :| 0 <= i < |init| && IsIn(init[i], "started");
        assert IsIn(looks[i], "started");
      } else if IsIn(last, "started") {
        assert IsIn(looks[|looks| - 1], "started");
      }
    }
  }

  class Vendor {
    ghost var trace: seq<Event>
    /** Requests that raised. */
    ghost var failures: nat

    constructor ()
      ensures trace == [] && failures == 0
    {
      trace, failures := [], 0;
    }

    method ServerDetails() returns (server: Option<Server>)
      modifies this
      ensures trace == old(trace) + if server.Some? then [Saw(server.value)] else []
      ensures failures == old(failures) + if server.Some? then 0 else 1
    {
      server := None;
      var works: bool := *;
      if works {
        var seen: Server := *;
        server := Some(seen);
        trace := trace + [Saw(seen)];
      } else {
        failures := failures + 1;
      }
    }

    method Request(request: Event) returns (ok: bool)
      modifies this
      ensures trace == old(trace) + [request]
      ensures failures == old(failures) + if ok then 0 else 1
    {
      ok := *;
      if !ok { failures := failures + 1; }
      trace := trace + [request];
    }

    /** Waits for the server to have stopped, asking it to once. */
    method AwaitStopped() returns (server: Result<Server, Error>, stopSent: bool, ghost looks: seq<Server>)
      modifies this
      ensures trace == old(trace) + Polling(looks) && |looks| <= 25
      ensures failures == old(failures) + if server == Err(Failed) then 1 else 0
      ensures forall i :: 0 <= i < |looks| - 1 ==> !IsIn(looks[i], "stopped")
      ensures server.Ok? ==> looks != [] && looks[|looks| - 1] == server.value && IsIn(server.value, "stopped")
      ensures server.Ok? ==> stopSent == SeenStarted(looks)
      ensures server == Err(DidNotStop) ==> |looks| == 25 && forall i :: 0 <= i < |looks| ==> !IsIn(looks[i], "stopped")
    {
      stopSent, looks := false, [];
      for n := 0 to POLLS
        invariant trace == old(trace) + Polling(looks) && |looks| == n && failures == old(failures)
        invariant stopSent == SeenStarted(looks)
        invariant forall i :: 0 <= i < |looks| ==> !IsIn(looks[i], "stopped")
      {
        var seen := ServerDetails();
        if seen.None? { return Err(Failed), stopSent, looks; }
        Looking(looks, seen.value);
        ghost var before := looks;
        looks := looks + [seen.value];
        if seen.value.state == Some("stopped") { return Ok(seen.value), stopSent, looks; }
        if seen.value.state == Some("started") && !stopSent {
          var ok := Request(Stop);
          stopSent := true;
          if !ok { return Err(Failed), stopSent, looks; }
        }
      }
      return Err(DidNotStop), stopSent, looks;
    }

    /** `_delete_vms`. */
    method DeleteVm() returns (r: Result<Deleted, Error>, ghost looks: seq<Server>, ghost teardown: seq<Event>)
      modifies this
      ensures trace == old(trace) + Polling(looks) + teardown && |looks| <= 25
      ensures failures == old(failures) + if r == Err(Failed) then 1 else 0
      ensures forall i :: 0 <= i < |looks| - 1 ==> !IsIn(looks[i], "stopped")
      ensures teardown != [] ==>
                && looks != [] && IsIn(looks[|looks| - 1], "stopped")
                && teardown <= Teardown(looks[|looks| - 1])
      ensures r.Ok? ==>
                && looks != [] && IsIn(looks[|looks| - 1], "stopped")
                && var server := looks[|looks| - 1];
                   teardown == Teardown(server)
                   && r.value.volumesDetached == Storages(Others(server.devices, SystemDisk(server.devices)))
                   && r.value.stoppedFirst == SeenStarted(looks)
      ensures r == Err(DidNotStop) ==>
                teardown == [] && |looks| == 25 && forall i :: 0 <= i < |looks| ==> !IsIn(looks[i], "stopped")
    {
      hide Polling, SeenStarted, Others, SystemDisk;
      var server, stopSent;
      server, stopSent, looks := AwaitStopped();
      teardown := [];
      if server.Err? { return Err(server.error), looks, teardown; }
      var devices, detached := server.value.devices, [];
      var system := SystemDisk(devices);
      ghost var others := Others(devices, system);
      assert Teardown(server.value) == Detaches(others) + [Delete];
      var i, ok := 0, true;
      while i < |devices|
        invariant 0 <= i <= |devices| && failures == old(failures)
        invariant trace == old(trace) + Polling(looks) + teardown
        invariant teardown == Detaches(Others(devices[..i], system))
                  && detached == Storages(Others(devices[..i], system))
      {
        OthersStep(devices, system, i);
        if IsDisk(devices[i]) && system != Some(i) {
          ok := Request(Detach(devices[i].address));
          teardown := teardown + [Detach(devices[i].address)];
          if !ok {
            DetachesPrefix(devices, system, i + 1);
            return Err(Failed), looks, teardown;
          }
          detached := detached + [devices[i].storage];
        }
        i := i + 1;
      }
      assert devices[..|devices|] == devices;
      ok := Request(Delete);
      teardown := teardown + [Delete];
      if !ok { return Err(Failed), looks, teardown; }
      return Ok(Deleted(stopSent, detached)), looks, teardown;
    }
  }

  lemma Looking(looks: seq<Server>, server: Server)
    ensures Polling(looks + [server])
            == Polling(looks) + [Saw(server)] + if IsIn(server, "started") && !SeenStarted(looks) then [Stop] else []
    ensures SeenStarted(looks + [server]) == (SeenStarted(looks) || IsIn(server, "started"))
  {
    var more := looks + [server];
    assert more[..|looks|] == looks;
    if SeenStarted(looks) {
      var i :| 0 <= i < |looks| && IsIn(looks[i], "started");
      assert IsIn(more[i], "started");
    }
    if IsIn(server, "started") { assert IsIn(more[|looks|], "started"); }
  }

  lemma OthersStep(devices: seq<Device>, kept: Option<nat>, i: nat)
    requires i < |devices|
    ensures Others(devices[..i + 1], kept)
            == Others(devices[..i], kept) + if IsDisk(devices[i]) && kept != Some(i) then [devices[i]] else []
  {
    assert devices[..i + 1][..i] == devices[..i];
  }

  lemma {:induction false} OthersPrefix(devices: seq<Device>, kept: Option<nat>, i: nat)
    requires i <= |devices|
    ensures Others(devices[..i], kept) <= Others(devices, kept)
    decreases |devices| - i
  {
    if i < |devices| {
      OthersPrefix(devices, kept, i + 1);
      OthersStep(devices, kept, i);
    } else {
      assert devices[..i] == devices;
    }
  }

  lemma DetachesPrefix(devices: seq<Device>, kept: Option<nat>, i: nat)
    requires i <= |devices|
    ensures Detaches(Others(devices[..i], kept)) <= Detaches(Others(devices, kept))
  {
    hide Others;
    OthersPrefix(devices, kept, i);
  }
}
