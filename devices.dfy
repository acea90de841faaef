/**
 * Device discovery and the cached device list of the Python backend's
 * device manager.
 *
 * The three discovery sources are parameters: the parsed output of
 * `xcrun simctl list devices -j` (`None` when the command failed or printed
 * something that is not JSON), what the usbmux library reports for each
 * attached device (`None` when the library is missing or listing failed),
 * and the parsed output of `pymobiledevice3 usbmux list`.
 *
 * Every discovery loop sits inside a `try` whose handler returns what has
 * been collected so far, so an exception ends the whole pass and keeps the
 * devices found before it. A `Scan` records that: the devices collected and
 * whether the pass ran to the end.
 */
module Devices {
  import opened Wrappers
  import opened Text
  import opened Json
  import opened Models

  /** The devices a (partial) pass collected, and whether it finished without an exception. */
  datatype Scan = Scan(devices: seq<Device>, complete: bool)

  /** An element the loop passes over with `continue` or an `if` that does not append. */
  const Skipped := Scan([], true)

  /** An element that makes the loop body raise, ending the pass. */
  const Aborted := Scan([], false)

  /** An element that appends one device. */
  function Took(d: Device): Scan
  {
    Scan([d], true)
  }

  /**
   * A `for` loop whose body, run on each element, contributes `step(x)`: the
   * devices of every element in order, up to and including the first
   * element whose body raises.
   */
  function ScanAll<T>(step: T -> Scan, xs: seq<T>): (r: Scan)
    ensures r.complete <==> forall i :: 0 <= i < |xs| ==> step(xs[i]).complete
    ensures forall d :: d in r.devices ==> exists i :: 0 <= i < |xs| && d in step(xs[i]).devices
    ensures r.complete ==> forall i, d :: 0 <= i < |xs| && d in step(xs[i]).devices ==> d in r.devices
  {
    if xs == [] then Scan([], true)
    else
      var n := |xs| - 1;
      var s := ScanAll(step, xs[..n]);
      assert forall i :: 0 <= i < n ==> xs[..n][i] == xs[i];
      if !s.complete then s
      else
        var t := step(xs[n]);
        Scan(s.devices + t.devices, t.complete)
  }

  /** Once a prefix of the elements has raised, the rest of them change nothing. */
  lemma {:induction false} ScanStopped<T>(step: T -> Scan, xs: seq<T>, i: nat)
    requires i <= |xs| && !ScanAll(step, xs[..i]).complete
    ensures ScanAll(step, xs) == ScanAll(step, xs[..i])
    decreases |xs| - i
  {
    if i < |xs| {
      var n := |xs| - 1;
      assert xs[..n][..i] == xs[..i];
      ScanStopped(step, xs[..n], i);
    } else {
      assert xs[..i] == xs;
    }
  }

  /** One more element that does not raise extends the pass by its devices. */
  lemma ScanSnoc<T>(step: T -> Scan, xs: seq<T>, i: nat)
    requires i < |xs| && ScanAll(step, xs[..i]).complete
    ensures ScanAll(step, xs[..i + 1]) ==
      Scan(ScanAll(step, xs[..i]).devices + step(xs[i]).devices, step(xs[i]).complete)
  {
    assert xs[..i + 1][..i] == xs[..i];
  }

  /**
   * The loop itself: runs the body on each element in turn and returns the
   * devices collected, stopping at the first element whose body raises.
   */
  method RunScan<T>(step: T -> Scan, xs: seq<T>) returns (ds: seq<Device>, complete: bool)
    ensures Scan(ds, complete) == ScanAll(step, xs)
  {
    ds := [];
    var i := 0;
    assert xs[..0] == [];
    while i < |xs|
      invariant 0 <= i <= |xs|
      invariant Scan(ds, true) == ScanAll(step, xs[..i])
    {
      var t := step(xs[i]);
      ScanSnoc(step, xs, i);
      ds := ds + t.devices;
      if !t.complete {
        ScanStopped(step, xs, i + 1);
        return ds, false;
      }
      i := i + 1;
    }
    assert xs[..i] == xs;
    return ds, true;
  }

  /**
   * The elements a `for` loop over a parsed JSON value visits, as far as the
   * loop bodies here can tell them apart: a list's items; nothing for an
   * empty string or dictionary; otherwise one element that is not a
   * dictionary, which stands for the first character or key (on which
   * `.get` raises) or for the `TypeError` of iterating a number, a boolean or
   * `null`.
   */
  function Members(v: Value): (xs: seq<Value>)
    ensures v.Arr? ==> xs == v.items
    ensures !v.Arr? ==> forall i :: 0 <= i < |xs| ==> !xs[i].Obj?
  {
    match v
    case Arr(items) => items
    case Str(s) => if s == "" then [] else [Null]
    case Obj(fields) => if fields == [] then [] else [Null]
    case _ => [Null]
  }

  // Simulators

  /**
   * The body of the inner loop of `_discover_simulators` on one entry: an
   * entry whose `state` is `"Booted"` becomes a connected simulator named by
   * its `name` and identified by its `udid`; any other dictionary is passed
   * over; `.get` on something else, or a missing `udid` or `name`, raises.
   */
  function SimulatorStep(e: Value): (r: Scan)
    ensures !e.Obj? ==> r == Aborted
    ensures e.Obj? && Get(e.fields, "state") != Some(Str("Booted")) ==> r == Skipped
    ensures forall d :: d in r.devices ==>
      Booted(e, d) && d == Device(d.id, d.name, Simulator, Connected, None, None, UnknownConnection)
  {
    if !e.Obj? then Aborted
    else if Get(e.fields, "state") != Some(Str("Booted")) then Skipped
    else
      match (Get(e.fields, "udid"), Get(e.fields, "name"))
      case (Some(Str(id)), Some(Str(name))) =>
        Took(Device(id, name, Simulator, Connected, None, None, UnknownConnection))
      case _ => Aborted
  }

  /** A simulator entry in state `"Booted"` whose `udid` and `name` are those of `d`. */
  predicate Booted(e: Value, d: Device)
  {
    e.Obj? && Get(e.fields, "state") == Some(Str("Booted")) &&
    Get(e.fields, "udid") == Some(Str(d.id)) && Get(e.fields, "name") == Some(Str(d.name))
  }

  /** The body of the outer loop on one runtime: only runtimes whose name contains `iOS` are looked into. */
  function RuntimeStep(runtime: (string, Value)): (r: Scan)
    ensures !IsInfix("iOS", runtime.0) ==> r == Skipped
    ensures IsInfix("iOS", runtime.0) ==> r == ScanAll(SimulatorStep, Members(runtime.1))
  {
    if !IsInfix("iOS", runtime.0) then Skipped
    else ScanAll(SimulatorStep, Members(runtime.1))
  }

  /**
   * `data.get("devices", {}).items()`: the runtimes of a listing that is a
   * dictionary whose `devices`, when present, is a dictionary; `None` when
   * there is no listing or either call raises.
   */
  function Runtimes(listing: Option<Value>): (r: Option<seq<(string, Value)>>)
    ensures listing.None? || !listing.value.Obj? ==> r.None?
    ensures listing.Some? && listing.value.Obj? && Get(listing.value.fields, "devices").None? ==> r == Some([])
  {
    match listing
    case None => None
    case Some(Obj(fields)) =>
      (match Get(fields, "devices")
       case None => Some([])
       case Some(Obj(runtimes)) => Some(runtimes)
       case Some(_) => None)
    case Some(_) => None
  }

  /** What `_discover_simulators` returns for a listing. */
  function Simulators(listing: Option<Value>): (ds: seq<Device>)
    ensures forall d :: d in ds ==>
      d.deviceType == Simulator && d.state == Connected && d.rsdTunnel.None? &&
      d.productType.None? && d.connectionType == UnknownConnection
    ensures Runtimes(listing).None? ==> ds == []
  {
    match Runtimes(listing)
    case None => []
    case Some(runtimes) =>
      var r := ScanAll(RuntimeStep, runtimes);
      assert forall d :: d in r.devices ==>
        d.deviceType == Simulator && d.state == Connected && d.rsdTunnel.None? &&
        d.productType.None? && d.connectionType == UnknownConnection by {
        forall d | d in r.devices
          ensures d.deviceType == Simulator && d.state == Connected && d.rsdTunnel.None? &&
            d.productType.None? && d.connectionType == UnknownConnection
        {
          var i :| 0 <= i < |runtimes| && d in RuntimeStep(runtimes[i]).devices;
          var es := Members(runtimes[i].1);
          var j :| 0 <= j < |es| && d in SimulatorStep(es[j]).devices;
        }
      }
      r.devices
  }

  /**
   * Every simulator discovered is a booted entry of an iOS runtime, and it
   * carries that entry's `udid` and `name`.
   */
  lemma SimulatorOrigin(listing: Option<Value>, d: Device)
    requires d in Simulators(listing)
    ensures Runtimes(listing).Some?
    ensures exists i, j ::
      && 0 <= i < |Runtimes(listing).value| && IsInfix("iOS", Runtimes(listing).value[i].0)
      && 0 <= j < |Members(Runtimes(listing).value[i].1)|
      && Booted(Members(Runtimes(listing).value[i].1)[j], d)
  {
    var runtimes := Runtimes(listing).value;
    var i :| 0 <= i < |runtimes| && d in RuntimeStep(runtimes[i]).devices;
    var es := Members(runtimes[i].1);
    var j :| 0 <= j < |es| && d in SimulatorStep(es[j]).devices;
  }

  /**
   * When no entry makes the loop raise, every booted entry of an iOS
   * runtime is discovered.
   */
  lemma BootedSimulatorFound(listing: Option<Value>, i: nat, j: nat, d: Device)
    requires Runtimes(listing).Some?
    requires forall k :: 0 <= k < |Runtimes(listing).value| ==> RuntimeStep(Runtimes(listing).value[k]).complete
    requires i < |Runtimes(listing).value| && IsInfix("iOS", Runtimes(listing).value[i].0)
    requires j < |Members(Runtimes(listing).value[i].1)| && SimulatorStep(Members(Runtimes(listing).value[i].1)[j]) == Took(d)
    ensures d in Simulators(listing)
  {
    var runtimes := Runtimes(listing).value;
    assert d in SimulatorStep(Members(runtimes[i].1)[j]).devices;
    assert d in RuntimeStep(runtimes[i]).devices;
  }

  /** `_discover_simulators`: the outer loop over runtimes and the inner loop over their entries. */
  method DiscoverSimulators(listing: Option<Value>) returns (devices: seq<Device>)
    ensures devices == Simulators(listing)
  {
    var runtimes := Runtimes(listing);
    if runtimes.None? {
      return [];
    }
    var rs := runtimes.value;
    devices := [];
    var i := 0;
    assert rs[..0] == [];
    while i < |rs|
      invariant 0 <= i <= |rs|
      invariant Scan(devices, true) == ScanAll(RuntimeStep, rs[..i])
    {
      var found, complete := RuntimeScan(rs[i]);
      ScanSnoc(RuntimeStep, rs, i);
      devices := devices + found;
      if !complete {
        ScanStopped(RuntimeStep, rs, i + 1);
        return;
      }
      i := i + 1;
    }
    assert rs[..i] == rs;
  }

  /** The body of the outer loop of `_discover_simulators` on one runtime, with its inner loop. */
  method RuntimeScan(runtime: (string, Value)) returns (found: seq<Device>, complete: bool)
    ensures Scan(found, complete) == RuntimeStep(runtime)
  {
    if !IsInfix("iOS", runtime.0) {
      return [], true;
    }
    found, complete := RunScan(SimulatorStep, Members(runtime.1));
  }

  // Physical devices

  /** The parts of a lockdown client the discovery reads. */
  datatype Lockdown = Lockdown(displayName: Option<string>, productType: Option<string>)

  /**
   * A device the usbmux library lists: its serial, the text of its
   * `connection_type` attribute when it has one, and the lockdown client
   * `create_using_usbmux` returns for it, `None` when that call raised.
   */
  datatype UsbmuxDevice = UsbmuxDevice(serial: string, connectionType: Option<string>, lockdown: Option<Lockdown>)

  /** Upper-casing of ASCII letters. */
  function UpperChar(c: char): char
  {
    if 'a' <= c <= 'z' then (c as int - 32) as char else c
  }

  function Upper(s: string): (r: string)
    ensures |r| == |s| && forall i :: 0 <= i < |s| ==> r[i] == UpperChar(s[i])
  {
    seq(|s|, i requires 0 <= i < |s| => UpperChar(s[i]))
  }

  /** USB, unless the upper-cased connection type mentions WIFI or NETWORK. */
  function NativeConnection(u: UsbmuxDevice): (c: ConnectionType)
    ensures c == WiFi <==>
      u.connectionType.Some? && (IsInfix("WIFI", Upper(u.connectionType.value)) || IsInfix("NETWORK", Upper(u.connectionType.value)))
    ensures c != WiFi ==> c == Usb
  {
    match u.connectionType
    case None => Usb
    case Some(ct) =>
      var t := Upper(ct);
      if IsInfix("WIFI", t) || IsInfix("NETWORK", t) then WiFi else Usb
  }

  /**
   * The body of the native loop on one usbmux device. Its own `try` keeps a
   * failing device from ending the pass: that device is passed over.
   */
  function NativeStep(u: UsbmuxDevice): (r: Scan)
    ensures r.complete
    ensures u.lockdown.None? <==> r == Skipped
    ensures forall d :: d in r.devices ==>
      u.lockdown.Some? && d.id == u.serial && d.deviceType == Physical && d.state == Connected &&
      d.rsdTunnel.None? && d.productType == u.lockdown.value.productType &&
      d.connectionType == NativeConnection(u) &&
      d.name == (if u.lockdown.value.displayName.GetOr("") == "" then "iPhone" else u.lockdown.value.displayName.value)
  {
    match u.lockdown
    case None => Skipped
    case Some(l) =>
      var name := if l.displayName.GetOr("") == "" then "iPhone" else l.displayName.value;
      Took(Device(u.serial, name, Physical, Connected, None, l.productType, NativeConnection(u)))
  }

  /** What `_discover_with_pymobiledevice3_native` returns. */
  function Native(usbmux: Option<seq<UsbmuxDevice>>): (ds: seq<Device>)
    ensures usbmux.None? ==> ds == []
    ensures usbmux.Some? ==>
      forall d :: d in ds <==> exists i :: 0 <= i < |usbmux.value| && NativeStep(usbmux.value[i]) == Took(d)
  {
    match usbmux
    case None => []
    case Some(us) =>
      var r := ScanAll(NativeStep, us);
      assert forall d :: d in r.devices ==> exists i :: 0 <= i < |us| && NativeStep(us[i]) == Took(d) by {
        forall d | d in r.devices
          ensures exists i :: 0 <= i < |us| && NativeStep(us[i]) == Took(d)
        {
          var i :| 0 <= i < |us| && d in NativeStep(us[i]).devices;
        }
      }
      assert forall i, d :: 0 <= i < |us| && NativeStep(us[i]) == Took(d) ==> d in r.devices by {
        forall i, d | 0 <= i < |us| && NativeStep(us[i]) == Took(d)
          ensures d in r.devices
        {
          assert d in NativeStep(us[i]).devices;
        }
      }
      r.devices
  }

  /** `_discover_with_pymobiledevice3_native`. */
  method DiscoverNative(usbmux: Option<seq<UsbmuxDevice>>) returns (devices: seq<Device>)
    ensures devices == Native(usbmux)
  {
    if usbmux.None? {
      return [];
    }
    var complete;
    devices, complete := RunScan(NativeStep, usbmux.value);
  }

  /** The keys that may hold a device's identifier, in the order they are tried. */
  const IdKeys: seq<string> := ["Identifier", "UniqueDeviceID", "UDID"]

  /** `info.get("DeviceName", "iPhone")`. */
  function CliName(fields: seq<(string, Value)>): (r: Option<string>)
    ensures Get(fields, "DeviceName").None? ==> r == Some("iPhone")
  {
    match Get(fields, "DeviceName")
    case None => Some("iPhone")
    case Some(Str(s)) => Some(s)
    case Some(_) => None
  }

  /** `info.get("ProductType")`, where JSON `null` and a missing key both mean no product type. */
  function CliProductType(fields: seq<(string, Value)>): (r: Option<Option<string>>)
    ensures Get(fields, "ProductType").None? ==> r == Some(None)
  {
    match Get(fields, "ProductType")
    case None => Some(None)
    case Some(Null) => Some(None)
    case Some(Str(s)) => Some(Some(s))
    case Some(_) => None
  }

  /**
   * The body of the CLI loop on one entry: an entry without a truthy
   * identifier is passed over; any other one becomes a connected physical
   * device on USB; `.get` on something that is not a dictionary raises.
   */
  function CliStep(info: Value): (r: Scan)
    ensures !info.Obj? ==> r == Aborted
    ensures info.Obj? && FirstTruthy(info.fields, IdKeys).None? ==> r == Skipped
    ensures r.complete <==>
              info.Obj? && (FirstTruthy(info.fields, IdKeys).None? ||
              (FirstTruthy(info.fields, IdKeys).value.Str? && CliName(info.fields).Some? && CliProductType(info.fields).Some?))
    ensures forall d :: d in r.devices ==>
      info.Obj? && FirstTruthy(info.fields, IdKeys) == Some(Str(d.id)) && d.id != "" &&
      d.deviceType == Physical && d.state == Connected && d.rsdTunnel.None? && d.connectionType == Usb &&
      Some(d.name) == CliName(info.fields) && Some(d.productType) == CliProductType(info.fields)
  {
    if !info.Obj? then Aborted
    else
      var id := FirstTruthy(info.fields, IdKeys);
      var name := CliName(info.fields);
      var productType := CliProductType(info.fields);
      if id.None? then Skipped
      else if id.value.Str? && name.Some? && productType.Some? then
        Took(Device(id.value.s, name.value, Physical, Connected, None, productType.value, Usb))
      else Aborted
  }

  /** What `_discover_with_pymobiledevice3_cli` returns. */
  function Cli(listing: Option<Value>): (ds: seq<Device>)
    ensures listing.None? ==> ds == []
    ensures forall d :: d in ds ==> d.deviceType == Physical && d.connectionType == Usb && d.id != ""
  {
    match listing
    case None => []
    case Some(data) =>
      var infos := Members(data);
      var r := ScanAll(CliStep, infos);
      assert forall d :: d in r.devices ==> d.deviceType == Physical && d.connectionType == Usb && d.id != "" by {
        forall d | d in r.devices
          ensures d.deviceType == Physical && d.connectionType == Usb && d.id != ""
        {
          var i :| 0 <= i < |infos| && d in CliStep(infos[i]).devices;
        }
      }
      r.devices
  }

  /**
   * When no entry makes the loop raise, every entry with a truthy
   * identifier is discovered, under that identifier, its name and its
   * product type.
   */
  lemma CliEntryFound(listing: Option<Value>, i: nat)
    requires listing.Some?
    requires forall k :: 0 <= k < |Members(listing.value)| ==> CliStep(Members(listing.value)[k]).complete
    requires i < |Members(listing.value)|
    requires Members(listing.value)[i].Obj? && FirstTruthy(Members(listing.value)[i].fields, IdKeys).Some?
    ensures var f := Members(listing.value)[i].fields;
      FirstTruthy(f, IdKeys).value.Str? && CliName(f).Some? && CliProductType(f).Some? &&
      Device(FirstTruthy(f, IdKeys).value.s, CliName(f).value, Physical, Connected, None, CliProductType(f).value, Usb)
        in Cli(listing)
  {
    var infos := Members(listing.value);
    var f := infos[i].fields;
    assert CliStep(infos[i]).complete;
    var d := Device(FirstTruthy(f, IdKeys).value.s, CliName(f).value, Physical, Connected, None, CliProductType(f).value, Usb);
    assert d in CliStep(infos[i]).devices;
  }

  /** `_discover_with_pymobiledevice3_cli`. */
  method DiscoverCli(listing: Option<Value>) returns (devices: seq<Device>)
    ensures devices == Cli(listing)
  {
    if listing.None? {
      return [];
    }
    var complete;
    devices, complete := RunScan(CliStep, Members(listing.value));
  }

  /** What `_discover_physical_devices` returns: the native result unless it is empty, then the CLI one. */
  function PhysicalDevices(usbmux: Option<seq<UsbmuxDevice>>, cli: Option<Value>): (ds: seq<Device>)
    ensures Native(usbmux) != [] ==> ds == Native(usbmux)
    ensures Native(usbmux) == [] ==> ds == Cli(cli)
    ensures forall d :: d in ds ==> d.deviceType == Physical && d.state == Connected
  {
    var native := Native(usbmux);
    if native != [] then native else Cli(cli)
  }

  /** `_discover_physical_devices`. */
  method DiscoverPhysicalDevices(usbmux: Option<seq<UsbmuxDevice>>, cli: Option<Value>) returns (devices: seq<Device>)
    ensures devices == PhysicalDevices(usbmux, cli)
  {
    devices := DiscoverNative(usbmux);
    if devices != [] {
      return;
    }
    devices := DiscoverCli(cli);
  }

  // The cached list

  /** The position of the first device with the identifier, as the scan of `get_device` finds it. */
  function FirstIndex(ds: seq<Device>, id: string): (k: Option<nat>)
    ensures k.None? <==> forall i :: 0 <= i < |ds| ==> ds[i].id != id
    ensures k.Some? ==> k.value < |ds| && ds[k.value].id == id && forall j :: 0 <= j < k.value ==> ds[j].id != id
  {
    if ds == [] then None
    else if ds[0].id == id then Some(0)
    else
      match FirstIndex(ds[1..], id)
      case None => None
      case Some(k) => Some(k + 1)
  }

  /** Devices that agree on identifiers are looked up alike. */
  lemma {:induction false} FirstIndexOfSameIds(ds: seq<Device>, es: seq<Device>, id: string)
    requires |ds| == |es| && forall i :: 0 <= i < |ds| ==> ds[i].id == es[i].id
    ensures FirstIndex(ds, id) == FirstIndex(es, id)
  {
    if ds != [] && ds[0].id != id {
      FirstIndexOfSameIds(ds[1..], es[1..], id);
    }
  }

  class DeviceManager {
    /** `_devices`, the list the last discovery produced. */
    var devices: seq<Device>

    constructor ()
      ensures devices == []
    {
      devices := [];
    }

    /** `list_devices`: simulators first, then physical devices; the result is the new cached list. */
    method ListDevices(simctl: Option<Value>, usbmux: Option<seq<UsbmuxDevice>>, cli: Option<Value>) returns (ds: seq<Device>)
      modifies this
      ensures devices == Simulators(simctl) + PhysicalDevices(usbmux, cli)
      ensures ds == devices
    {
      var simulators := DiscoverSimulators(simctl);
      var physical := DiscoverPhysicalDevices(usbmux, cli);
      devices := simulators + physical;
      ds := devices;
    }

    /** The loop of `get_device`: the position of the first cached device with the identifier. */
    method Find(id: string) returns (k: Option<nat>)
      ensures k == FirstIndex(devices, id)
    {
      var i := 0;
      while i < |devices|
        invariant 0 <= i <= |devices|
        invariant forall j :: 0 <= j < i ==> devices[j].id != id
      {
        if devices[i].id == id {
          return Some(i);
        }
        i := i + 1;
      }
      return None;
    }

    /** `get_device`: the first cached device with the identifier, if any. */
    method GetDevice(id: string) returns (d: Option<Device>)
      ensures d.None? <==> forall i :: 0 <= i < |devices| ==> devices[i].id != id
      ensures d.Some? ==>
        exists i :: 0 <= i < |devices| && devices[i] == d.value && d.value.id == id && forall j :: 0 <= j < i ==> devices[j].id != id
    {
      var k := Find(id);
      if k.None? {
        return None;
      }
      return Some(devices[k.value]);
    }

    /**
     * `update_tunnel`: records the tunnel on the first cached device with the
     * identifier and answers whether there was one; nothing else changes.
     */
    method UpdateTunnel(id: string, tunnel: RSDTunnel) returns (found: bool)
      modifies this
      ensures found <==> exists i :: 0 <= i < |old(devices)| && old(devices)[i].id == id
      ensures !found ==> devices == old(devices)
      ensures found ==> var k := FirstIndex(old(devices), id).value;
        devices == old(devices)[k := old(devices)[k].(rsdTunnel := Some(tunnel))]
      ensures forall other :: FirstIndex(devices, other) == FirstIndex(old(devices), other)
    {
      var k := Find(id);
      if k.None? {
        return false;
      }
      var i := k.value;
      ghost var before := devices;
      devices := devices[i := devices[i].(rsdTunnel := Some(tunnel))];
      forall other
        ensures FirstIndex(devices, other) == FirstIndex(before, other)
      {
        FirstIndexOfSameIds(devices, before, other);
      }
      return true;
    }
  }
}
