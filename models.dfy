/**
 * The shared records: devices, RSD tunnel endpoints and per-device tunnel
 * state, with their dictionary forms and the product-name table.
 */
module Models {
  import opened Wrappers
  import opened Json

  datatype DeviceType = Simulator | Physical
  datatype DeviceState = Connected | Disconnected
  datatype ConnectionType = Usb | WiFi | UnknownConnection
  datatype TunnelStatus = NoTunnel | Discovering | TunnelConnected | Stale | TunnelDisconnected | TunnelError

  function DeviceTypeValue(t: DeviceType): string
  {
    match t
    case Simulator => "simulator"
    case Physical => "physical"
  }

  function DeviceStateValue(s: DeviceState): string
  {
    match s
    case Connected => "connected"
    case Disconnected => "disconnected"
  }

  function ConnectionTypeValue(c: ConnectionType): string
  {
    match c
    case Usb => "USB"
    case WiFi => "WiFi"
    case UnknownConnection => "Unknown"
  }

  function TunnelStatusValue(s: TunnelStatus): string
  {
    match s
    case NoTunnel => "no_tunnel"
    case Discovering => "discovering"
    case TunnelConnected => "connected"
    case Stale => "stale"
    case TunnelDisconnected => "disconnected"
    case TunnelError => "error"
  }

  /** Where an iOS 17+ device's RemoteXPC service listens. */
  datatype RSDTunnel = RSDTunnel(address: string, port: int, udid: Option<string>)
  {
    /** Usable for connecting: a non-empty address and a positive port. */
    predicate IsConfigured()
    {
      address != "" && port > 0
    }
  }

  function OptStr(o: Option<string>): Value
  {
    match o
    case None => Null
    case Some(s) => Str(s)
  }

  function TunnelToDict(t: RSDTunnel): (v: Value)
    ensures v.Obj? && Keys(v.fields) == ["address", "port", "udid"]
  {
    Obj([("address", Str(t.address)), ("port", Int(t.port)), ("udid", OptStr(t.udid))])
  }

  function OptStrFrom(v: Value): Option<Option<string>>
  {
    match v
    case Null => Some(None)
    case Str(s) => Some(Some(s))
    case _ => None
  }

  /** Reads a tunnel back from its dictionary form. */
  function TunnelFromDict(v: Value): Option<RSDTunnel>
  {
    if !v.Obj? then None
    else
      var a := Get(v.fields, "address");
      var p := Get(v.fields, "port");
      var u := Get(v.fields, "udid");
      if a.Some? && a.value.Str? && p.Some? && p.value.Int? && u.Some? && OptStrFrom(u.value).Some?
      then Some(RSDTunnel(a.value.s, p.value.i, OptStrFrom(u.value).value))
      else None
  }

  /** `to_dict` loses nothing: every field of a tunnel can be read back from it. */
  lemma TunnelDictRoundTrip(t: RSDTunnel)
    ensures TunnelFromDict(TunnelToDict(t)) == Some(t)
  {
    var f := TunnelToDict(t).fields;
    GetAt(f, 0);
    GetAt(f, 1);
    GetAt(f, 2);
  }

  /** What the tunnel manager remembers about one device. */
  datatype TunnelState = TunnelState(
    udid: string,
    status: TunnelStatus,
    tunnelInfo: Option<RSDTunnel>,
    lastValidated: real,
    lastQueried: real,
    error: Option<string>)

  /** `TunnelState(udid)` with the dataclass defaults. */
  function DefaultTunnelState(udid: string): (s: TunnelState)
    ensures s.udid == udid && s.status == NoTunnel && s.tunnelInfo.None?
    ensures s.lastValidated == 0.0 && s.lastQueried == 0.0 && s.error.None?
  {
    TunnelState(udid, NoTunnel, None, 0.0, 0.0, None)
  }

  function OptTunnelToDict(t: Option<RSDTunnel>): Value
  {
    match t
    case None => Null
    case Some(x) => TunnelToDict(x)
  }

  function TunnelStateToDict(s: TunnelState): (v: Value)
    ensures v.Obj? && Keys(v.fields) == ["udid", "status", "tunnelInfo", "lastValidated", "lastQueried", "error"]
  {
    Obj([("udid", Str(s.udid)), ("status", Str(TunnelStatusValue(s.status))),
         ("tunnelInfo", OptTunnelToDict(s.tunnelInfo)),
         ("lastValidated", Real(s.lastValidated)), ("lastQueried", Real(s.lastQueried)),
         ("error", OptStr(s.error))])
  }

  /** The state's dictionary form holds `null` without a tunnel and the tunnel's own dictionary otherwise. */
  lemma TunnelStateDictTunnel(s: TunnelState)
    ensures Get(TunnelStateToDict(s).fields, "tunnelInfo") == Some(if s.tunnelInfo.None? then Null else TunnelToDict(s.tunnelInfo.value))
    ensures Get(TunnelStateToDict(s).fields, "status") == Some(Str(TunnelStatusValue(s.status)))
  {
    var f := TunnelStateToDict(s).fields;
    assert f[0].0 == "udid" && f[1].0 == "status" && f[2].0 == "tunnelInfo";
    GetAt(f, 1);
    GetAt(f, 2);
  }

  /** Marketing names for the Pro models, keyed by hardware product type. */
  const ProductNames: map<string, string> := map[
    "iPhone17,1" := "iPhone 16 Pro",
    "iPhone17,2" := "iPhone 16 Pro Max",
    "iPhone16,1" := "iPhone 15 Pro",
    "iPhone16,2" := "iPhone 15 Pro Max",
    "iPhone15,2" := "iPhone 14 Pro",
    "iPhone15,3" := "iPhone 14 Pro Max",
    "iPhone14,2" := "iPhone 13 Pro",
    "iPhone14,3" := "iPhone 13 Pro Max"
  ]

  /** A simulator or physical iOS device. */
  datatype Device = Device(
    id: string,
    name: string,
    deviceType: DeviceType,
    state: DeviceState,
    rsdTunnel: Option<RSDTunnel>,
    productType: Option<string>,
    connectionType: ConnectionType)
  {
    /** The name shown to the user: the marketing name of a known product type, else the product type, else the device name. */
    function ProductName(): (r: string)
      ensures productType.Some? && productType.value in ProductNames ==> r == ProductNames[productType.value]
      ensures productType.Some? && productType.value != "" && productType.value !in ProductNames ==> r == productType.value
      ensures (productType.None? || productType.value == "") ==> r == name
    {
      match productType
      case Some(pt) =>
        if pt != "" then (if pt in ProductNames then ProductNames[pt] else pt) else name
      case None => name
    }
  }

  function DeviceToDict(d: Device): (v: Value)
    ensures v.Obj? && Keys(v.fields) == ["id", "name", "type", "state", "productType", "productName", "connectionType", "rsdTunnel"]
  {
    Obj([("id", Str(d.id)), ("name", Str(d.name)), ("type", Str(DeviceTypeValue(d.deviceType))),
         ("state", Str(DeviceStateValue(d.state))), ("productType", OptStr(d.productType)),
         ("productName", Str(d.ProductName())), ("connectionType", Str(ConnectionTypeValue(d.connectionType))),
         ("rsdTunnel", OptTunnelToDict(d.rsdTunnel))])
  }

  /** The dictionary form holds `null` for a device without a tunnel and the tunnel's own dictionary otherwise. */
  lemma DeviceDictTunnel(d: Device)
    ensures Get(DeviceToDict(d).fields, "rsdTunnel") == Some(if d.rsdTunnel.None? then Null else TunnelToDict(d.rsdTunnel.value))
  {
    var f := DeviceToDict(d).fields;
    assert f[0].0 == "id" && f[1].0 == "name" && f[2].0 == "type" && f[3].0 == "state";
    assert f[4].0 == "productType" && f[5].0 == "productName" && f[6].0 == "connectionType" && f[7].0 == "rsdTunnel";
    GetAt(f, 7);
  }

  /** The dictionary form shows the derived product name. */
  lemma DeviceDictProductName(d: Device)
    ensures Get(DeviceToDict(d).fields, "productName") == Some(Str(d.ProductName()))
  {
    var f := DeviceToDict(d).fields;
    assert f[0].0 == "id" && f[1].0 == "name" && f[2].0 == "type" && f[3].0 == "state";
    assert f[4].0 == "productType" && f[5].0 == "productName";
    GetAt(f, 5);
  }
}
