/**
 * Reading tunneld's answer: which entry of the response belongs to a
 * device, and the RSD tunnel endpoint held in that entry.
 *
 * The HTTP request and the JSON decoding are outside the model; the decoded
 * response is a parameter, `None` when the request failed or the text was
 * not JSON (both end in the `except` of `_query_tunneld_http`). Objects are
 * dictionaries, so their keys are taken to be distinct.
 */
module Tunnels {
  import opened Wrappers
  import opened Text
  import opened Json
  import opened Models

  /** The keys tried for the address and for the port, in the order they are tried. */
  const AddressKeys: seq<string> := ["tunnel-address", "address", "tunnel_address", "rsd_address"]
  const PortKeys: seq<string> := ["tunnel-port", "port", "tunnel_port", "rsd_port"]

  /** When the first key is absent and the second truthy, the second key's value is taken. */
  lemma FirstTruthySecond(fields: seq<(string, Value)>, keys: seq<string>)
    requires |keys| >= 2 && Get(fields, keys[0]).None? && TruthyAt(fields, keys[1])
    ensures FirstTruthy(fields, keys) == Get(fields, keys[1])
  {
    assert keys[1..][0] == keys[1];
  }

  /** Python's `int(v)` for a decoded JSON value; `None` where it raises. */
  function PortNumber(v: Value): (n: Option<int>)
    ensures v.Int? ==> n == Some(v.i)
    ensures v.Arr? || v.Obj? || v.Null? ==> n.None?
  {
    match v
    case Null => None
    case Bool(b) => Some(if b then 1 else 0)
    case Int(i) => Some(i)
    case Real(r) => Some(if r >= 0.0 then r.Floor else -((-r).Floor))
    case Str(s) => ParseInt(s)
    case Arr(_) => None
    case Obj(_) => None
  }

  /** Python's `str(v)`: strings as they are, integers in decimal, booleans by name, anything else by `repr`. */
  function AddressText(v: Value, repr: Value -> string): (s: string)
    ensures v.Str? ==> s == v.s
    ensures v.Int? ==> s == IntToString(v.i)
  {
    match v
    case Str(s) => s
    case Int(i) => IntToString(i)
    case Bool(b) => if b then "True" else "False"
    case _ => repr(v)
  }

  /** What `_extract_tunnel_info` ends in: a tunnel, `None`, or the `ValueError`/`TypeError` of `int(port)`. */
  datatype Extracted = Found(tunnel: RSDTunnel) | Missing | Raised

  /** The dictionary `_extract_tunnel_info` reads: the entry itself, or the first element of a list. */
  function EntryDict(info: Value): Option<seq<(string, Value)>>
  {
    var d := if info.Arr? then (if info.items == [] then Null else info.items[0]) else info;
    if d.Obj? then Some(d.fields) else None
  }

  /**
   * `_extract_tunnel_info`: a list stands for its first element; that must
   * be a dictionary with a truthy address and a truthy port, each the first
   * truthy one of its keys in order.
   */
  function ExtractTunnelInfo(info: Value, udid: string, repr: Value -> string): (r: Extracted)
    ensures info.Arr? && info.items == [] ==> r == Missing
    ensures EntryDict(info).None? ==> r == Missing
    ensures r.Found? ==> r.tunnel.udid == Some(udid)
  {
    match EntryDict(info)
    case None => Missing
    case Some(d) =>
      var address := FirstTruthy(d, AddressKeys);
      var port := FirstTruthy(d, PortKeys);
      if address.None? || port.None? then Missing
      else match PortNumber(port.value)
        case None => Raised
        case Some(n) => Found(RSDTunnel(AddressText(address.value, repr), n, Some(udid)))
  }

  /**
   * An entry yields a tunnel (or fails on its port) exactly when it is a
   * dictionary, or a list whose first element is one, with some truthy
   * address key and some truthy port key.
   */
  lemma ExtractSucceeds(info: Value, udid: string, repr: Value -> string)
    ensures !ExtractTunnelInfo(info, udid, repr).Missing? <==>
      EntryDict(info).Some?
      && (exists i :: 0 <= i < |AddressKeys| && TruthyAt(EntryDict(info).value, AddressKeys[i]))
      && (exists i :: 0 <= i < |PortKeys| && TruthyAt(EntryDict(info).value, PortKeys[i]))
  {
  }

  /** A found tunnel carries the first truthy address and the port that the first truthy port key holds, converted. */
  lemma ExtractFields(info: Value, udid: string, repr: Value -> string)
    requires ExtractTunnelInfo(info, udid, repr).Found?
    ensures var d := EntryDict(info).value;
      var t := ExtractTunnelInfo(info, udid, repr).tunnel;
      t.address == AddressText(FirstTruthy(d, AddressKeys).value, repr)
      && Some(t.port) == PortNumber(FirstTruthy(d, PortKeys).value)
  {
  }

  /** A list of entries is read through its first element when that element is not itself a list. */
  lemma ExtractFirstOfList(x: Value, rest: seq<Value>, udid: string, repr: Value -> string)
    requires !x.Arr?
    ensures ExtractTunnelInfo(Arr([x] + rest), udid, repr) == ExtractTunnelInfo(x, udid, repr)
  {
    assert ([x] + rest)[0] == x;
  }

  /** A dictionary with no `tunnel-address` or `tunnel-port` but a truthy `address` and an integer `port`. */
  lemma ExtractAddressPort(d: seq<(string, Value)>, address: string, port: int, udid: string, repr: Value -> string)
    requires Get(d, "tunnel-address").None? && Get(d, "address") == Some(Str(address)) && address != ""
    requires Get(d, "tunnel-port").None? && Get(d, "port") == Some(Int(port)) && port != 0
    ensures ExtractTunnelInfo(Obj(d), udid, repr) == Found(RSDTunnel(address, port, Some(udid)))
  {
    assert AddressKeys[0] == "tunnel-address" && AddressKeys[1] == "address";
    assert TruthyAt(d, AddressKeys[1]);
    FirstTruthySecond(d, AddressKeys);
    assert PortKeys[0] == "tunnel-port" && PortKeys[1] == "port";
    assert TruthyAt(d, PortKeys[1]);
    FirstTruthySecond(d, PortKeys);
    ExtractOfFirst(d, Str(address), Int(port), udid, repr);
    assert PortNumber(Int(port)) == Some(port) && AddressText(Str(address), repr) == address;
  }

  /** The tunnel read from a dictionary is built from the first truthy address and port. */
  lemma ExtractOfFirst(d: seq<(string, Value)>, address: Value, port: Value, udid: string, repr: Value -> string)
    requires FirstTruthy(d, AddressKeys) == Some(address) && FirstTruthy(d, PortKeys) == Some(port)
    ensures ExtractTunnelInfo(Obj(d), udid, repr) ==
      match PortNumber(port)
      case None => Raised
      case Some(n) => Found(RSDTunnel(AddressText(address, repr), n, Some(udid)))
  {
    assert EntryDict(Obj(d)) == Some(d);
  }

  /**
   * The dictionary form of a configured tunnel reads back as that tunnel,
   * under the udid that was asked for: `to_dict` writes the `address` and
   * `port` keys, which are among the keys tried.
   */
  lemma ExtractTunnelDict(t: RSDTunnel, udid: string, repr: Value -> string)
    requires t.IsConfigured()
    ensures ExtractTunnelInfo(TunnelToDict(t), udid, repr) == Found(RSDTunnel(t.address, t.port, Some(udid)))
  {
    var d := TunnelToDict(t).fields;
    assert d[0].0 == "address" && d[1].0 == "port";
    GetAt(d, 0);
    GetAt(d, 1);
    ExtractAddressPort(d, t.address, t.port, udid, repr);
  }

  // ---------------------------------------------------------------------------
  // Matching the response to the device
  // ---------------------------------------------------------------------------

  /** `udid in key or key in udid`. */
  predicate KeyMatches(udid: string, key: string)
  {
    IsInfix(udid, key) || IsInfix(key, udid)
  }

  /** A string occurs in itself, so an exact key also matches partially. */
  lemma {:induction false} InfixOfSelf(s: string)
    ensures IsInfix(s, s)
  {
    assert s[..|s|] == s;
  }

  /**
   * The entry `_query_tunneld_http` reads: the one under the exact udid when
   * there is one, otherwise the first whose key contains the udid or is
   * contained in it.
   */
  predicate Selected(fields: seq<(string, Value)>, udid: string, k: nat)
  {
    k < |fields|
    && if Get(fields, udid).Some?
      then fields[k].0 == udid && forall j :: 0 <= j < k ==> fields[j].0 != udid
      else KeyMatches(udid, fields[k].0) && forall j :: 0 <= j < k ==> !KeyMatches(udid, fields[j].0)
  }

  /** At most one entry is the selected one. */
  lemma SelectedUnique(fields: seq<(string, Value)>, udid: string, k1: nat, k2: nat)
    requires Selected(fields, udid, k1) && Selected(fields, udid, k2)
    ensures k1 == k2
  {
  }

  /** The position of the first entry under `key`. */
  function FirstKey(fields: seq<(string, Value)>, key: string): (r: Option<nat>)
    ensures r.None? <==> forall j :: 0 <= j < |fields| ==> fields[j].0 != key
    ensures r.Some? ==> r.value < |fields| && fields[r.value].0 == key && forall j :: 0 <= j < r.value ==> fields[j].0 != key
  {
    if fields == [] then None
    else if fields[0].0 == key then Some(0)
    else match FirstKey(fields[1..], key)
      case None => None
      case Some(i) => Some(i + 1)
  }

  /** The position of the first entry whose key matches `udid` partially. */
  function FirstPartial(fields: seq<(string, Value)>, udid: string): (r: Option<nat>)
    ensures r.None? <==> forall j :: 0 <= j < |fields| ==> !KeyMatches(udid, fields[j].0)
    ensures r.Some? ==>
      r.value < |fields| && KeyMatches(udid, fields[r.value].0) && forall j :: 0 <= j < r.value ==> !KeyMatches(udid, fields[j].0)
  {
    if fields == [] then None
    else if KeyMatches(udid, fields[0].0) then Some(0)
    else match FirstPartial(fields[1..], udid)
      case None => None
      case Some(i) => Some(i + 1)
  }

  /** The selected entry, if any: an entry is selected exactly when one matches the udid at least partially. */
  function Selection(fields: seq<(string, Value)>, udid: string): (r: Option<nat>)
    ensures r.Some? ==> Selected(fields, udid, r.value)
    ensures r.None? <==> forall j :: 0 <= j < |fields| ==> !KeyMatches(udid, fields[j].0)
  {
    if Get(fields, udid).Some? then
      var r := FirstKey(fields, udid);
      InfixOfSelf(udid);
      assert KeyMatches(udid, fields[r.value].0);
      r
    else FirstPartial(fields, udid)
  }

  /**
   * The lookup of `_query_tunneld_http`: a response that is not a
   * dictionary selects nothing; otherwise the exact key, else the first
   * partial match, else nothing.
   */
  method MatchDevice(data: Value, udid: string) returns (k: Option<nat>)
    ensures k == if data.Obj? then Selection(data.fields, udid) else None
  {
    if !data.Obj? || data.fields == [] {
      return None;
    }
    var fields := data.fields;
    if Get(fields, udid).Some? {
      var i := 0;
      while fields[i].0 != udid
        invariant 0 <= i < |fields|
        invariant exists j :: i <= j < |fields| && fields[j].0 == udid
        invariant forall j :: 0 <= j < i ==> fields[j].0 != udid
        decreases |fields| - i
      {
        i := i + 1;
      }
      return Some(i);
    }
    var i := 0;
    while i < |fields|
      invariant 0 <= i <= |fields|
      invariant forall j :: 0 <= j < i ==> !KeyMatches(udid, fields[j].0)
      decreases |fields| - i
    {
      if KeyMatches(udid, fields[i].0) {
        return Some(i);
      }
      i := i + 1;
    }
    return None;
  }

  /** The tunnel a found entry holds; nothing when the entry has none or reading its port raises. */
  function TunnelOf(e: Extracted): Option<RSDTunnel>
  {
    if e.Found? then Some(e.tunnel) else None
  }

  /**
   * What `_query_tunneld_http` answers for a decoded response: the tunnel
   * extracted from the selected entry, and `None` when there is no response,
   * no entry is selected, the selected one holds no tunnel, or reading its
   * port raises.
   */
  function Answer(response: Option<Value>, udid: string, repr: Value -> string): Option<RSDTunnel>
  {
    if response.None? || !response.value.Obj? then None
    else match Selection(response.value.fields, udid)
      case None => None
      case Some(k) => TunnelOf(ExtractTunnelInfo(response.value.fields[k].1, udid, repr))
  }

  /** A tunnel is answered exactly when the selected entry yields one, and it then carries the udid asked for. */
  lemma AnswerFound(response: Option<Value>, udid: string, repr: Value -> string, k: nat)
    requires response.Some? && response.value.Obj? && Selected(response.value.fields, udid, k)
    ensures Answer(response, udid, repr).Some? <==> ExtractTunnelInfo(response.value.fields[k].1, udid, repr).Found?
    ensures Answer(response, udid, repr).Some? ==>
      Answer(response, udid, repr) == Some(ExtractTunnelInfo(response.value.fields[k].1, udid, repr).tunnel)
      && Answer(response, udid, repr).value.udid == Some(udid)
  {
    var fields := response.value.fields;
    var r := Selection(fields, udid);
    InfixOfSelf(udid);
    assert KeyMatches(udid, fields[k].0);
    SelectedUnique(fields, udid, r.value, k);
  }

  /** `_query_tunneld_http` after the request: match the entry, then extract its tunnel. */
  method QueryTunneld(response: Option<Value>, udid: string, repr: Value -> string) returns (t: Option<RSDTunnel>)
    ensures t == Answer(response, udid, repr)
  {
    if response.None? {
      return None;
    }
    var k := MatchDevice(response.value, udid);
    if k.None? {
      return None;
    }
    t := TunnelOf(ExtractTunnelInfo(response.value.fields[k.value].1, udid, repr));
  }
}
