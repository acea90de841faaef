# Location simulator backend: a Dafny model

This project models the state-holding core of a backend that moves an iOS
device (a simulator or a phone over an RSD tunnel) along a map. The pieces
modelled are:

- **Route service.** Per-device routes are built from waypoints and segments. An optional closing segment leads back to the start in loop mode. A route cruise hands point pairs ("legs") to a cruise engine one at a time, and the feed state machine `_start_next_point_pair` decides the next leg. It follows a reroute path first, then a bridge leg across a segment boundary; it skips pairs closer than the arrival threshold, advances segments, and wraps around in loop mode or finishes. `_on_point_arrival` advances its counters.
- **Cruise service** (Python backend). A registry of cruise sessions with the Idle / Running / Paused / Arrived / Stopped states, and one step of its cruise loop.
- **Event bus.** Fan-out of events to a set of bounded FIFO queues, one per subscriber, that drops an event for a queue that is full.
- **Favorites.** The `lat,lon,name` line format. The in-memory list with add, update, delete and import, and rollback when saving fails.
- **Models.** `RSDTunnel`, `TunnelState` and `Device`, with their dictionary forms.
- **Tunnel managers** (both backends). The per-device status map, `get_status`, `invalidate`, `get_tunnel`, `start_tunnel` and `stop_tunnel` bookkeeping. The matching of a tunneld HTTP answer against a UDID, and `_extract_tunnel_info`.
- **Device manager** (Python backend). Discovery over already parsed tool output, the cached device list, `get_device` and `update_tunnel`.

## Modules

| file | module | what it holds |
|---|---|---|
| wrappers.dfy | `Wrappers` | `Option` |
| geo.dfy | `Geo` | positions, paths and the abstract distance |
| replies.dfy | `Replies` | the reply dictionaries of the cruise and route services |
| json.dfy | `Json` | parsed JSON values, `dict.get` on them, and Python truthiness |
| text.dfy | `Text` | `str.strip`, `str.split(sep, 2)`, `str(int)` and `int(str)` |
| models.dfy | `Models` | the data model and its `to_dict` forms |
| favorites.dfy | `Favorites` | favorite lines and `FavoritesService` |
| tunnels.dfy | `Tunnels` | tunnel extraction and tunneld answer matching |
| tunnel_manager.dfy | `TunnelManagement` | `TunnelManager` and its status map |
| devices.dfy | `Devices` | discovery passes and `DeviceManager` |
| cruise_service.dfy | `Cruise` | `CruiseSession`, `CruiseService` and one tick of the cruise loop |
| event_bus.dfy | `Events` | bounded queues and `EventBus` |
| route_model.dfy | `RouteModel` | routes as values: segment construction, add/undo/loop edits, the feed step `FeedOnce` and the whole feed `Feed`, arrivals, remaining distance |
| route_feed.dfy | `RouteFeed` | lemmas about the feed: counters, outcomes, leg lengths, divergence |
| route_shape.dfy | `RouteShape` | the shape invariant of a route and how each edit keeps or breaks it |
| route_distance.dfy | `RouteDistance` | bounds on the remaining distance |
| route_scenarios.dfy | `RouteScenarios` | the arrival counts of whole route cruises |
| route_service.dfy | `Routes` | `Route`, `RouteSession` and `RouteService` as classes |

### How the route service is modelled

**Classes and values.** `Route`, `RouteSession` and `RouteService` are classes whose methods update their fields. Each method is proved against the value-level functions of `RouteModel`:

- `AddPoint`, `UndoPoint` and `SetLoop` are the route edits;
- `Feed` is the recursive `_start_next_point_pair`;
- `Arrive` is the counter update of `_on_point_arrival`.

**The feed.** `Feed` is a recursion over progress states, as `_start_next_point_pair` is. Its termination measure allows one loop wrap-around per call. A second wrap-around within one call means that the route is wrapped around again and again without reaching a leg: the source recursion goes on until the interpreter's recursion limit raises `RecursionError`. The model reports that case as the outcome `Diverged`, which escapes from the caller as that exception does. The budget is exact, not a fuel bound: `DivergenceIsPermanent` shows that a budget of one wrap-around decides every call, and `BudgetUnusedWithoutWrap` shows that the budget does not change any other outcome. `RouteService.FeedFrom` is the method form of the same recursion: each call runs one level on the mutable session (`SequencerLevel`) and then calls itself, as the source does.

**The cruise engine.** The route service drives a cruise engine (`on_arrival`, `start_cruise`, `stop_cruise`, `pause_cruise`, `resume_cruise`, `set_cruise_speed`, `remove_arrival_callback`, `cleanup_session`). That engine is an interface here: every call the service issues to it, and every event it emits, is appended to a ghost log `calls`. The scenario lemmas count arrivals against that log.

**Abstract pieces.**

- Distances are an abstract function `Distance`: non-negative, and zero from a point to itself.
- The router is an abstract function of the two endpoints. It returns a non-empty path with a non-negative distance, and a fallback answer is the straight line between the endpoints. Being a function, it gives the same endpoints the same answer every time; "## Left out" says what that assumption costs.
- The arrival threshold of the route feed is `speed / 720000` km for a positive speed, and `1e-6` km otherwise.

### How the other services are modelled

**Cruise service.** `CruiseService` keeps `sessions: map<string, CruiseSession>`. One iteration of `_cruise_loop` is `Tick`, which takes the current time and an abstract move function.

**Event bus.** `EventBus` keeps a set of `Queue` objects. Each queue has a sequence of items and a `maxsize`, where `maxsize <= 0` means unbounded, as in `asyncio.Queue`.

**Favorites.** Numbers are printed and read through an abstract codec `FloatText`. Its soundness (`Prints`: parsing a printed number gives it back, and the text is non-empty, has no surrounding whitespace, no comma and no newline) is assumed only where the round trips need it. Saving is a boolean parameter, so a failed save can be modelled. The file read is a `FileRead` value.

**Tunnel managers.** The two tunnel managers are the same code for the operations modelled. The backend copy is cited, except for `stop_tunnel` and `start_tunnel`, which exist only in `python-backend/services/tunnel_manager.py`, and the constructor. Both backends have a constructor; the backend's also sets the tunneld state and the event emitter, which this model leaves out, so the Python backend's is cited. The Python backend has these duplicates:

- get_tunnel 43-68;
- get_status 70-104;
- invalidate 106-118;
- _update_status 200-216;
- _query_tunneld_http 222-250;
- _extract_tunnel_info 252-276.

**Device manager.** The device manager's discovery sources are parameters:

- the parsed `simctl` listing;
- what the usbmux library reports;
- the parsed CLI listing.

Each discovery loop, together with the `except` that ends it, is a `Scan` built by `ScanAll`.

## Model

| member | source | states |
|---|---|---|
| Json.Get | backend/services/tunnel_manager.py:338-345 | `dict.get`: `None` exactly when no entry has the key, and otherwise the value of an entry with that key |
| Json.GetAt | backend/models.py:104-114 | the value stored under a key that no earlier entry has is what `get` returns for it |
| Json.Keys | backend/models.py:104-114 | the keys of a dictionary, one per entry, in insertion order |
| Json.FirstTruthy | backend/services/tunnel_manager.py:338-345 | an `a or b or c` chain of `get`s: `None` exactly when no key has a truthy value; otherwise a truthy value stored under some key, with every earlier key falsy |
| Text.StripLeft | backend/services/favorites_service.py:33 | a suffix of the input that does not start with whitespace, with only whitespace removed before it |
| Text.StripRight | backend/services/favorites_service.py:33 | a prefix of the input that does not end with whitespace, with only whitespace removed after it |
| Text.Strip | backend/services/favorites_service.py:33 | `str.strip()` gives a stripped string no longer than the input |
| Text.StripIdentity | backend/services/favorites_service.py:42-44 | stripping an already stripped string changes nothing |
| Text.StripIdempotent | backend/services/favorites_service.py:42-44 | stripping twice is stripping once |
| Text.IndexOf | backend/services/favorites_service.py:37 | the first position of a character: `None` exactly when it does not occur; otherwise it occurs there and not before |
| Text.SplitAtMostTwice | backend/services/favorites_service.py:37 | `split(sep, 2)` gives one to three parts, exactly one when the separator is absent, and only the last part may contain the separator |
| Text.SplitJoined | backend/services/favorites_service.py:37 | splitting `a,b,c` where `a` and `b` contain no comma gives back `[a, b, c]`, whatever `c` contains |
| Text.IndexOfAfter | backend/services/favorites_service.py:37 | the first separator after a separator-free prefix is found right after it |
| Text.Digit | backend/services/favorites_service.py:157 | a decimal digit is a character between `0` and `9` |
| Text.NatToString | backend/services/favorites_service.py:157 | `str(n)` of a natural number is a non-empty digit string, and `"0"` exactly for zero |
| Text.IntToString | backend/services/favorites_service.py:157 | `str(n)`: the digits of `n`, with a leading `-` exactly when `n` is negative |
| Text.DigitsValueOfNatToString | backend/services/favorites_service.py:157 | the digits `str(n)` prints denote `n` |
| Text.ParseDigits | backend/services/tunnel_manager.py:348 | a digit string is read exactly when it is non-empty and all digits |
| Text.ParseIntOfStripped | backend/services/tunnel_manager.py:348 | `int()` of a string without surrounding whitespace is its signed-digits reading |
| Text.DigitsStripped | backend/services/tunnel_manager.py:348 | a digit string has no surrounding whitespace |
| Text.ParseSignedOfDigits | backend/services/tunnel_manager.py:348 | `int()` of a non-empty digit string is the number the digits denote |
| Text.NegatedDigitsStripped | backend/services/tunnel_manager.py:348 | a minus sign followed by digits has no surrounding whitespace |
| Text.ParseSignedOfNegatedDigits | backend/services/tunnel_manager.py:348 | `int()` of `-` followed by digits is the negated number |
| Text.ParseSignedOfSignedDigits | backend/services/tunnel_manager.py:348 | `int()` reads a signed digit string as the number whose magnitude the digits denote |
| Text.ParseIntOfIntToString | backend/services/tunnel_manager.py:348 | `int(str(n)) == n` for every integer, so a port given as its decimal text reads back as that port |
| Models.TunnelToDict | backend/models.py:45-50 | `RSDTunnel.to_dict` is a dictionary of exactly `address`, `port`, `udid`, in that order |
| Models.TunnelDictRoundTrip | backend/models.py:45-50 | reading the three fields back out of `to_dict` gives the same tunnel |
| Models.DefaultTunnelState | backend/models.py:53-61 | a fresh `TunnelState` has status NO_TUNNEL, no tunnel info, both timestamps 0.0 and no error |
| Models.TunnelStateToDict | backend/models.py:63-71 | `TunnelState.to_dict` has exactly the six camel-case keys, in order |
| Models.TunnelStateDictTunnel | backend/models.py:63-71 | its `tunnelInfo` is null without a tunnel and the tunnel's `to_dict` otherwise; its `status` is the status's string value |
| Models.Device.ProductName | backend/models.py:98-102 | the marketing name when the product type is in the map, the product type itself when it is non-empty and unmapped, and the device name when there is no product type |
| Models.DeviceToDict | backend/models.py:104-114 | `Device.to_dict` has exactly the eight keys, in order |
| Models.DeviceDictTunnel | backend/models.py:113 | its `rsdTunnel` is null without a tunnel and the tunnel's `to_dict` otherwise |
| Models.DeviceDictProductName | backend/models.py:111 | its `productName` is the device's product name |
| Favorites.ToDict | backend/services/favorites_service.py:19-24 | `Favorite.to_dict` has exactly `latitude`, `longitude`, `name` |
| Favorites.ToDictFields | backend/services/favorites_service.py:19-24 | those keys hold the favorite's latitude, longitude and name |
| Favorites.FromLineAccepts | backend/services/favorites_service.py:31-52 | `from_line` gives a favorite exactly when the stripped line is non-empty, has at least two comma fields, both coordinates parse and both are in range; the favorite then carries those coordinates |
| Favorites.FromLineName | backend/services/favorites_service.py:37-44 | a parsed favorite is named by the stripped third field, or `"lat, lon"` when there is none |
| Favorites.ToLineShape | backend/services/favorites_service.py:26-28 | `to_line` of a storable favorite is a non-empty, stripped line without newline |
| Favorites.FromStrippedJoined | backend/services/favorites_service.py:33-50 | a stripped `a,b,name` whose coordinates parse in range is read as exactly that favorite |
| Favorites.LineRoundTrip | backend/services/favorites_service.py:26-52 | `from_line(to_line(f)) == f` for every storable favorite |
| Favorites.Collect | backend/services/favorites_service.py:100-103 | the loading loop keeps at most one favorite per line |
| Favorites.CollectAppend | backend/services/favorites_service.py:100-103 | loading two runs of lines is loading each run and concatenating, so file order is kept |
| Favorites.CollectCons | backend/services/favorites_service.py:100-103 | a valid first line contributes its favorite first |
| Favorites.CollectSnoc | backend/services/favorites_service.py:100-103 | one more line adds its favorite at the end when valid and nothing otherwise |
| Favorites.LinesCons | backend/services/favorites_service.py:100 | iterating a file yields its first line, newline included, before the rest |
| Favorites.StripNewline | backend/services/favorites_service.py:33 | stripping a saved line removes exactly its newline |
| Favorites.SavedLineRoundTrip | backend/services/favorites_service.py:108-113 | a line as `_save` writes it, newline included, reads back as the same favorite |
| Favorites.CollectFirstLine | backend/services/favorites_service.py:100-103 | a file that starts with a readable line loads that favorite, then the rest of the file |
| Favorites.CollectJoined | backend/services/favorites_service.py:94-113 | for any printer and parser that round-trip each favorite, loading the joined lines gives back the list |
| Favorites.FileRoundTrip | backend/services/favorites_service.py:94-113 | loading a file `_save` wrote gives back the saved list, in order |
| Favorites.ReadFavorites | backend/services/favorites_service.py:94-106 | `_load` over a file's text yields the valid lines' favorites in file order |
| Favorites.CollectLines | backend/services/favorites_service.py:100-103 | the appending loop over lines equals the specification of loading |
| Favorites.FavoritesService.constructor | backend/services/favorites_service.py:60-77 | a new service holds what the favorites file parses to, or nothing when there is no file |
| Favorites.FavoritesService.Load | backend/services/favorites_service.py:94-106 | loading or reloading replaces the list with the file's favorites |
| Favorites.FavoritesService.Add | backend/services/favorites_service.py:124-147 | an out-of-range latitude, then longitude, is refused with its own message; a failed save leaves the list as it was; otherwise exactly the new favorite is appended, named `"lat, lon"` when no name was given |
| Favorites.FavoritesService.Update | backend/services/favorites_service.py:149-171 | an index outside the list and a blank name are refused; a failed save rolls back; otherwise only that favorite's name changes, to the stripped name |
| Favorites.FavoritesService.Delete | backend/services/favorites_service.py:173-190 | an index outside the list is refused; a failed save rolls back; otherwise exactly that item is removed and the others keep their order |
| Favorites.FavoritesService.ImportFromFile | backend/services/favorites_service.py:192-224 | a missing or unreadable file and a file without valid lines are refused with the list unchanged; a failed save rolls back; otherwise the file's favorites are appended in file order and counted |
| Favorites.FavoritesService.PopLast | backend/services/favorites_service.py:222-223 | the rollback of an import removes exactly the last `n` favorites |
| Tunnels.FirstTruthySecond | backend/services/tunnel_manager.py:338-345 | when the first key is absent and the second truthy, the `or` chain gives the second key's value |
| Tunnels.PortNumber | backend/services/tunnel_manager.py:348 | `int(port)` keeps an integer and fails on a list, a dictionary or null |
| Tunnels.AddressText | backend/services/tunnel_manager.py:348 | `str(address)` keeps a string and prints an integer in decimal |
| Tunnels.ExtractTunnelInfo | backend/services/tunnel_manager.py:326-350 | an empty list and anything that is not a dictionary, or a list whose first item is not one, give no tunnel; a found tunnel carries the requested UDID |
| Tunnels.ExtractSucceeds | backend/services/tunnel_manager.py:326-350 | extraction gets past the key lookups exactly when the entry is a dictionary with some truthy address key and some truthy port key |
| Tunnels.ExtractFields | backend/services/tunnel_manager.py:326-350 | a found tunnel's address and port are the first truthy address and port values, converted |
| Tunnels.ExtractFirstOfList | backend/services/tunnel_manager.py:326-350 | a list is reduced to its first element |
| Tunnels.ExtractAddressPort | backend/services/tunnel_manager.py:326-350 | a dictionary with only `address` and `port` gives exactly that tunnel |
| Tunnels.ExtractOfFirst | backend/services/tunnel_manager.py:326-350 | given the first truthy address and port, extraction finds that tunnel, or raises when the port does not convert |
| Tunnels.ExtractTunnelDict | backend/services/tunnel_manager.py:338-348 | extraction reads back a configured tunnel from its own `to_dict`, with the requested UDID |
| Tunnels.SelectedUnique | backend/services/tunnel_manager.py:308-320 | the matching rule selects at most one entry |
| Tunnels.FirstKey | backend/services/tunnel_manager.py:308-311 | the exact-key lookup finds the first entry with the key, or reports that none has it |
| Tunnels.FirstPartial | backend/services/tunnel_manager.py:312-317 | the substring scan finds the first key that contains the UDID or is contained in it, or reports that none does |
| Tunnels.Selection | backend/services/tunnel_manager.py:308-320 | the selected entry is the one the matching rule picks, and there is none exactly when no key matches either way |
| Tunnels.MatchDevice | backend/services/tunnel_manager.py:308-320 | the loops over the answer's items select exactly that entry, or none for an answer that is not a dictionary |
| Tunnels.AnswerFound | backend/services/tunnel_manager.py:296-324 | with an entry selected, a tunnel is reported exactly when extraction from it succeeds; the tunnel is the extracted one and carries the UDID |
| Tunnels.QueryTunneld | backend/services/tunnel_manager.py:296-324 | the query's result on an answer is the specification `Answer` |
| TunnelManagement.Updated | backend/services/tunnel_manager.py:274-290 | `_update_status` overwrites status, tunnel info and error, keeps the UDID and `last_queried`, and sets `last_validated` to now only for CONNECTED |
| TunnelManagement.StatusObject | backend/services/tunnel_manager.py:237-244 | the legacy status object has exactly the six keys `running`, `address`, `port`, `udid`, `message`, `status` |
| TunnelManagement.StatusObjectFields | backend/services/tunnel_manager.py:237-244 | its `running`, `message` and `status` hold the given values |
| TunnelManagement.RunningStatus | backend/services/tunnel_manager.py:237-244 | the status reported for a running tunnel has those six keys |
| TunnelManagement.RunningStatusFields | backend/services/tunnel_manager.py:237-244 | it reports `running: true` and `status: "connected"` |
| TunnelManagement.IdleMessage | backend/services/tunnel_manager.py:247-254 | the idle message is the last error when there is a non-empty one, and "No active tunnels" otherwise |
| TunnelManagement.IdleStatus | backend/services/tunnel_manager.py:247-254 | the idle status has the six keys |
| TunnelManagement.IdleStatusFields | backend/services/tunnel_manager.py:247-254 | it reports `running: false`, the idle message and `status: "no_tunnel"` |
| TunnelManagement.Without | python-backend/services/tunnel_manager.py:180-181 | deleting a key keeps every other key and no duplicates |
| TunnelManagement.TunnelManager.constructor | python-backend/services/tunnel_manager.py:33-37 | a new manager has an empty status map and no last error |
| TunnelManagement.TunnelManager.Entry | backend/services/tunnel_manager.py:227-231 | `get_status(udid)` reads the stored state for that UDID, or a default NO_TUNNEL state |
| TunnelManagement.TunnelManager.UpdateStatus | backend/services/tunnel_manager.py:274-290 | only that UDID's entry changes, created first when missing, to `Updated` of its old value |
| TunnelManagement.TunnelManager.Invalidate | backend/services/tunnel_manager.py:256-268 | a known device becomes DISCONNECTED with "Connection failed"; an unknown device, and every other entry, are untouched |
| TunnelManagement.TunnelManager.GetStatus | backend/services/tunnel_manager.py:220-254 | with a UDID, its state's `to_dict`; without one, the first running entry in insertion order as running, or the idle status when none runs |
| TunnelManagement.TunnelManager.GetTunnel | backend/services/tunnel_manager.py:193-218 | an empty UDID gives nothing and changes nothing; otherwise the tunnel the query finds, recorded as CONNECTED, or NO_TUNNEL when none |
| TunnelManagement.TunnelManager.StartTunnel | python-backend/services/tunnel_manager.py:120-167 | an empty UDID is refused with no change; a tunnel tunneld already knows is reused; otherwise the start attempt's tunnel is recorded as CONNECTED, or its error as ERROR and reported |
| TunnelManagement.TunnelManager.StartFromQuery | python-backend/services/tunnel_manager.py:133-148 | a tunnel the query found is recorded and reported; otherwise a new tunnel is started |
| TunnelManagement.TunnelManager.StartNewTunnel | python-backend/services/tunnel_manager.py:150-167 | the started tunnel is recorded as CONNECTED, or the error as ERROR with "Unknown error" for an empty one; the error becomes the last error |
| TunnelManagement.TunnelManager.StopTunnel | python-backend/services/tunnel_manager.py:169-194 | a UDID removes only that entry; no UDID empties the map; both succeed |
| TunnelManagement.FreshEntry | backend/services/tunnel_manager.py:282-290 | an entry created by an update has `last_queried` 0.0 and `last_validated` now when CONNECTED, 0.0 otherwise |
| Devices.ScanAll | python-backend/services/device_manager.py:57-81 | a pass completes exactly when no iteration raises; every device collected comes from some element; a complete pass collects every element's devices |
| Devices.ScanStopped | python-backend/services/device_manager.py:79-81 | once an iteration has raised, the later elements add nothing |
| Devices.ScanSnoc | python-backend/services/device_manager.py:71-78 | an iteration after ones that did not raise appends its devices |
| Devices.RunScan | python-backend/services/device_manager.py:68-81 | the appending loop with its `except` computes the pass `ScanAll` |
| Devices.Members | python-backend/services/device_manager.py:71-72 | iterating a list visits its items; iterating anything else visits no dictionary |
| Devices.SimulatorStep | python-backend/services/device_manager.py:71-78 | `.get` on a non-dictionary raises; a non-Booted entry is passed over; every device appended is a booted entry's connected simulator |
| Devices.RuntimeStep | python-backend/services/device_manager.py:68-70 | a runtime whose name does not contain `iOS` is skipped; otherwise its entries are scanned |
| Devices.Runtimes | python-backend/services/device_manager.py:66-68 | no listing, or one that is not a dictionary, gives no runtimes; a listing without `devices` gives none to visit |
| Devices.Simulators | python-backend/services/device_manager.py:55-81 | every discovered device is a connected simulator without tunnel or product type; no runtimes give no simulators |
| Devices.SimulatorOrigin | python-backend/services/device_manager.py:68-78 | every discovered simulator comes from a Booted entry of a runtime whose name contains `iOS` |
| Devices.BootedSimulatorFound | python-backend/services/device_manager.py:68-78 | when no iteration raises, every Booted entry of an iOS runtime is discovered |
| Devices.DiscoverSimulators | python-backend/services/device_manager.py:55-81 | the two nested loops compute `Simulators` |
| Devices.Upper | python-backend/services/device_manager.py:105 | `upper()` keeps length and upper-cases each character |
| Devices.NativeConnection | python-backend/services/device_manager.py:103-107 | WIFI exactly when the upper-cased connection type contains `WIFI` or `NETWORK`, and USB otherwise |
| Devices.NativeStep | python-backend/services/device_manager.py:100-119 | a device whose lockdown fails is passed over without ending the pass; otherwise a connected physical device with that serial, the display name or `"iPhone"`, its product type and connection |
| Devices.Native | python-backend/services/device_manager.py:91-124 | no usbmux listing gives nothing; otherwise exactly the devices of the usbmux devices whose lockdown succeeds |
| Devices.DiscoverNative | python-backend/services/device_manager.py:91-124 | the native loop computes `Native` |
| Devices.CliName | python-backend/services/device_manager.py:144 | a missing `DeviceName` gives `"iPhone"` |
| Devices.CliProductType | python-backend/services/device_manager.py:147 | a missing `ProductType` gives no product type |
| Devices.CliStep | python-backend/services/device_manager.py:138-149 | a non-dictionary raises; an entry without a truthy id among `Identifier`, `UniqueDeviceID`, `UDID` is skipped; otherwise a connected physical USB device with the first such id, the name and the product type; the pass goes on exactly when the entry is a dictionary and is skipped or has a string id, name and product type |
| Devices.Cli | python-backend/services/device_manager.py:126-152 | no listing gives nothing; every device found is a physical USB device with a non-empty id |
| Devices.CliEntryFound | python-backend/services/device_manager.py:138-149 | when no entry raises, every dictionary entry with a truthy id is discovered with that id, its name and its product type |
| Devices.DiscoverCli | python-backend/services/device_manager.py:126-152 | the CLI loop computes `Cli` |
| Devices.PhysicalDevices | python-backend/services/device_manager.py:83-89 | the native result when it is non-empty, and the CLI result only when it is empty; all connected physical devices |
| Devices.DiscoverPhysicalDevices | python-backend/services/device_manager.py:83-89 | the method computes `PhysicalDevices` |
| Devices.FirstIndex | python-backend/services/device_manager.py:154-159 | the first position with the id, or none exactly when no device has it |
| Devices.FirstIndexOfSameIds | python-backend/services/device_manager.py:161-167 | lists that agree on ids answer every lookup alike, so updating a tunnel never changes a lookup |
| Devices.DeviceManager.constructor | python-backend/services/device_manager.py:18-21 | a new manager has no cached devices |
| Devices.DeviceManager.ListDevices | python-backend/services/device_manager.py:43-53 | the cached list becomes the simulators followed by the physical devices, and is returned |
| Devices.DeviceManager.Find | python-backend/services/device_manager.py:154-159 | the scan finds the first cached position with the id |
| Devices.DeviceManager.GetDevice | python-backend/services/device_manager.py:154-159 | the first cached device with the id, or `None` exactly when there is none |
| Devices.DeviceManager.UpdateTunnel | python-backend/services/device_manager.py:161-167 | `True` exactly when a device has the id; then only that first device's tunnel changes, otherwise nothing does; lookups are unaffected |
| Cruise.ClampSpeed | python-backend/services/cruise_service.py:291 | the speed is clamped into [1, 50] and kept when already inside |
| Cruise.Emitted | python-backend/services/cruise_service.py:131-134 | an event is emitted exactly when an emitter is set |
| Cruise.Located | python-backend/services/cruise_service.py:360-365 | the location is pushed exactly when a location callback is set |
| Cruise.CruiseSession.constructor | python-backend/services/cruise_service.py:45-70 | a new session is Idle at its start, with nothing travelled and both times now |
| Cruise.CruiseSession.ToStatus | python-backend/services/cruise_service.py:72-92 | the status reports the session's device, state and position, and a non-negative remaining distance that is zero at the target |
| Cruise.CruiseService.constructor | python-backend/services/cruise_service.py:108-114 | a new service has no sessions and no callbacks |
| Cruise.CruiseService.SetLocationCallback | python-backend/services/cruise_service.py:116-122 | only the location callback becomes set |
| Cruise.CruiseService.SetEventEmitter | python-backend/services/cruise_service.py:124-129 | only the event emitter becomes set |
| Cruise.CruiseService.StartCruise | python-backend/services/cruise_service.py:140-193 | a prior session is stopped first, even when validation then fails; without a location callback, or with start and target closer than the threshold, the call fails with no session; otherwise exactly one new Running session at the start with nothing travelled |
| Cruise.CruiseService.StopCruise | python-backend/services/cruise_service.py:195-226 | an absent device changes nothing; otherwise the session is removed, marked Stopped and one `cruiseStopped` is emitted |
| Cruise.CruiseService.PauseCruise | python-backend/services/cruise_service.py:228-250 | pausing succeeds only from Running; a failed call leaves the state; position, speed, distance and last update time never change |
| Cruise.CruiseService.ResumeCruise | python-backend/services/cruise_service.py:252-275 | resuming succeeds only from Paused and resets the last update time; a failed call leaves the state and the last update time; position, speed and distance never change |
| Cruise.CruiseService.SetCruiseSpeed | python-backend/services/cruise_service.py:277-296 | no session fails; otherwise the clamped speed is stored and reported, with state, position, distance and last update time unchanged |
| Cruise.CruiseService.CruiseStatus | python-backend/services/cruise_service.py:298-311 | idle exactly for a device without a session; otherwise the session's state and position |
| Cruise.CruiseService.StopAll | python-backend/services/cruise_service.py:313-316 | every session is stopped, the registry ends empty; when an emitter is set, one `cruiseStopped` per session is emitted and every stopped device has one |
| Cruise.CruiseService.StopOne | python-backend/services/cruise_service.py:315-316 | the returned device's session is stopped and removed, its `cruiseStopped` is emitted, and the others keep their states |
| Cruise.CruiseService.Tick | python-backend/services/cruise_service.py:331-436 | a paused tick changes neither position nor distance; states other than Running and Paused end the loop; within the threshold the position snaps to the target and the session arrives and is removed; otherwise the position moves and the distance grows by the step travelled |
| Events.Queue.constructor | backend/services/event_bus.py:69 | a new queue has the bus's capacity and no items |
| Events.Queue.PutNowait | backend/services/event_bus.py:105-109 | a full queue refuses the item; otherwise the item is appended at the tail; the capacity is never exceeded |
| Events.Queue.Get | backend/services/event_bus.py:79 | the head item is taken first (FIFO) |
| Events.EventBus.constructor | backend/services/event_bus.py:34-44 | a new bus has no subscribers and no bound loop |
| Events.EventBus.SetLoop | backend/services/event_bus.py:46-56 | a loop becomes bound and nothing else changes |
| Events.EventBus.Subscribe | backend/services/event_bus.py:69-72 | one fresh empty queue with the bus's capacity is added, and the subscriber count grows by one |
| Events.EventBus.Unsubscribe | backend/services/event_bus.py:84-86 | exactly that queue is removed |
| Events.EventBus.Broadcast | backend/services/event_bus.py:99-111 | every non-full queue gets the item at its tail, full queues are untouched, and the count is the number of queues that accepted |
| Events.EventBus.Publish | backend/services/event_bus.py:90-111 | `publish` is that broadcast of the event |
| Events.EventBus.PublishSync | backend/services/event_bus.py:113-125 | nothing is scheduled without a bound loop or when that loop is closed at the time of the call; otherwise one publish is scheduled |
| Events.EventBus.Close | backend/services/event_bus.py:132-143 | every non-full queue gets the `None` sentinel, and the subscriber set ends empty |
| RouteModel.ArrivalThresholdKm | python-backend/tests/test_route_speed.py:38-58 | the threshold is positive and equals five milliseconds of travel at a positive speed |
| RouteModel.RegularSegment | backend/services/route_service.py:245-251 | a regular segment leads from waypoint `i` to `i + 1` and is not a closure |
| RouteModel.ClosureSegment | backend/services/route_service.py:401-418 | the closure leads from the last waypoint back to waypoint 0 |
| RouteModel.ExpectedSegments | backend/services/route_service.py:232-257 | a route has one segment per consecutive waypoint pair, plus the closure in loop mode with at least two waypoints |
| RouteModel.AddPoint | backend/services/route_service.py:214-257 | adding a point appends exactly one waypoint at that position and keeps the earlier ones |
| RouteModel.UndoPoint | backend/services/route_service.py:298-309 | undo removes exactly the last waypoint |
| RouteModel.FeedOnce | backend/services/route_service.py:605-738 | each recursive step of the feed strictly lowers the termination measure, and a leg it issues is never shorter than the threshold |
| RouteModel.FeedStops | backend/services/route_service.py:605-738 | a step that hands a leg, finishes or faults ends the feed with no signal |
| RouteModel.FeedGoesOn | backend/services/route_service.py:605-738 | a step that recurses continues the feed from its new progress, after its signal |
| RouteModel.Arrive | backend/services/route_service.py:753-760 | an arrival changes exactly one counter: it clears the bridge flag without moving, or advances the reroute step, or advances the segment step |
| RouteFeed.StepCounters | backend/services/route_service.py:612-716 | a step adds one to the segment count exactly when it signals segment completion, and one to the loop count exactly when it signals loop completion |
| RouteFeed.StepOutcome | backend/services/route_service.py:605-738 | a step finishes only at the end of a non-loop route, faults only on an empty loop route, diverges only at a wrap without budget, and hands the current segment or reroute pair |
| RouteFeed.StepIgnoresCounters | backend/services/route_service.py:605-738 | a step's choice does not depend on the completion counters |
| RouteFeed.StepBudget | backend/services/route_service.py:653-665 | the wrap-around budget is consulted only at a wrap, where it restarts at segment 0 with one more loop |
| RouteFeed.LegsAreLongEnough | backend/services/route_service.py:631-738 | the feed never hands a leg whose endpoints are closer than the threshold |
| RouteFeed.CountersCountSignals | backend/services/route_service.py:605-738 | after a feed, the counters have grown by exactly the number of completion signals emitted |
| RouteFeed.OutcomeCases | backend/services/route_service.py:605-738 | a feed finishes only at the end of a non-loop route, faults only on an empty loop route, diverges only in loop mode, and otherwise hands the pair at its final progress |
| RouteFeed.OutcomeIgnoresCounters | backend/services/route_service.py:605-738 | the feed's outcome does not depend on the completion counters |
| RouteFeed.BudgetUnusedWithoutWrap | backend/services/route_service.py:653-665 | a feed that does not reach a wrap-around is the same with any budget |
| RouteFeed.ExtraWrapRestarts | backend/services/route_service.py:653-665 | with a larger budget, a wrap-around restarts the feed from segment 0 |
| RouteFeed.WrappedDivergesForever | backend/services/route_service.py:653-729 | a feed restarted from segment 0 that reaches another wrap-around does so with every budget |
| RouteFeed.DivergenceIsPermanent | backend/services/route_service.py:653-729 | a feed that loops forever with one wrap-around loops forever with any budget, so one wrap-around decides termination |
| RouteShape.ExpectedSplit | backend/services/route_service.py:232-257 | a loop route's segments are the regular ones plus the closure |
| RouteShape.RegularsEndRegular | backend/services/route_service.py:232-257 | a route without loop mode does not end in a closure |
| RouteShape.AddKeepsCanonical | backend/services/route_service.py:232-257 | adding a waypoint keeps the shape invariant: one segment per pair, and only the closure last in loop mode |
| RouteShape.UndoKeepsCanonical | backend/services/route_service.py:298-309 | undo keeps the shape invariant |
| RouteShape.UndoAfterAdd | backend/services/route_service.py:214-309 | undoing an add restores waypoints and segments |
| RouteShape.EditsKeepNames | backend/services/route_service.py:221-233 | waypoints stay named `START`, `1`, `2` and so on through add and undo |
| RouteShape.SetLoopShape | backend/services/route_service.py:339-354 | toggling the loop mode gives the shape invariant, except that disabling it while the session runs on the closure keeps the closure |
| RouteShape.UndoAfterClosureKeptDangles | backend/services/route_service.py:298-305 | after that exception, an undo leaves a last segment that leads to a removed waypoint |
| RouteShape.AddAfterClosureKeptBreaksShape | backend/services/route_service.py:236-251 | after that exception, an add keeps the old closure in the middle of the route and breaks the shape |
| RouteShape.ExpectedDistancesNonNegative | backend/services/route_service.py:245-251 | every segment the router builds has a non-negative distance |
| RouteDistance.PathLengthNonNegative | backend/services/route_service.py:138-142 | a polyline's remaining length is non-negative |
| RouteDistance.SegmentsDistanceNonNegative | backend/services/route_service.py:85-87 | the total distance of segments with non-negative distances is non-negative |
| RouteDistance.RemainingNonNegative | backend/services/route_service.py:129-148 | the remaining distance is non-negative, and zero at or past the last segment |
| RouteDistance.RemainingShrinksOnArrival | backend/services/route_service.py:129-148 | the remaining distance does not increase when an arrival advances the step |
| RouteDistance.RemainingAtStart | backend/services/route_service.py:129-148 | at the start, it is the first segment's polyline length plus the later segments' distances |
| RouteScenarios.PairFeed | backend/services/route_service.py:700-738 | inside a three-point segment, the feed hands the next pair |
| RouteScenarios.NextFeed | backend/services/route_service.py:680-716 | at the end of a segment, the feed signals completion and hands the bridge leg to the next segment |
| RouteScenarios.FinishFeed | backend/services/route_service.py:652-716 | at the end of the last segment without loop mode, the feed signals completion and finishes |
| RouteScenarios.WrapFeed | backend/services/route_service.py:652-716 | at the end of the last segment in loop mode, the feed signals segment and loop completion and bridges back to segment 0 |
| RouteScenarios.TwoSegmentsArriveOnFifthArrival | python-backend/tests/test_route_service.py:667-697 | two three-point segments hand five legs and finish on the fifth arrival with two segments completed |
| RouteScenarios.LoopFirstSegment | python-backend/tests/test_route_service.py:630-665 | in loop mode, the second arrival completes segment 0 and bridges into segment 1 |
| RouteScenarios.LoopOfThreeContinuesAfterNineArrivals | python-backend/tests/test_route_service.py:699-734 | a loop of three segments completes its first loop on the eighth arrival and is on segment 0 again after nine |
| RouteScenarios.TwoPointLoopCompletesOnFifthArrival | python-backend/tests/test_route_service.py:1071-1097 | a two-segment loop signals loop completion on the fifth arrival |
| Routes.Emitted | backend/services/route_service.py:196-199 | an event is emitted exactly when an emitter is set |
| Routes.SignalCalls | backend/services/route_service.py:619-624 | one event per completion signal when an emitter is set |
| Routes.LevelThenRest | backend/services/route_service.py:605-738 | a step's signal events followed by the rest of the feed's calls are the whole feed's calls |
| Routes.FeedCallsWhenStopped | backend/services/route_service.py:605-738 | a feed that stops without signals issues only its outcome's calls |
| Routes.Route.constructor | backend/services/route_service.py:77-83 | a new route is empty |
| Routes.Route.RecalculateDistance | backend/services/route_service.py:85-87 | the total distance becomes the sum of the segments' distances, and nothing else changes |
| Routes.RouteSession.constructor | backend/services/route_service.py:98-127 | a new session is Idle at the start of the route, with nothing travelled |
| Routes.RouteSession.MoveTo | backend/services/route_service.py:111-123 | only the progress fields change |
| Routes.RouteSession.RemainingDistanceKm | backend/services/route_service.py:129-148 | the accumulator loop computes `RemainingDistance` of the current progress |
| Routes.RouteService.constructor | backend/services/route_service.py:180-190 | a new service has no routes, no sessions and no emitter |
| Routes.RouteService.SetEventEmitter | backend/services/route_service.py:192-194 | only the emitter becomes set |
| Routes.RouteService.AddClosureSegment | backend/services/route_service.py:401-418 | exactly the closure segment is appended |
| Routes.RouteService.EnsureRoute | backend/services/route_service.py:214-217 | the device's route, created empty when missing, with the other routes unchanged |
| Routes.RouteService.ExtendRoute | backend/services/route_service.py:231-259 | the route becomes `AddPoint` of it, with the recalculated total |
| Routes.RouteService.ShrinkRoute | backend/services/route_service.py:298-311 | the route becomes `UndoPoint` of it, with the recalculated total |
| Routes.RouteService.AddWaypoint | backend/services/route_service.py:205-272 | the route becomes `AddPoint` of the old one; its total is recalculated except for the first point; one event is emitted |
| Routes.RouteService.UndoWaypoint | backend/services/route_service.py:274-322 | no waypoint fails "No waypoint to undo"; a running session fails "Cannot modify route while cruising" with the route unchanged; only START left removes the route; otherwise the route becomes `UndoPoint` of it |
| Routes.RouteService.SetLoopMode | backend/services/route_service.py:324-360 | the segments become `SetLoop` of the old ones, with the closure kept when a running session is on it, and the total is recalculated |
| Routes.RouteService.ClearRoute | backend/services/route_service.py:362-373 | an active session refuses the clear; otherwise the route is removed |
| Routes.RouteService.SequencerLevel | backend/services/route_service.py:605-738 | one level of the recursion moves the session to `FeedOnce`'s progress and issues its calls |
| Routes.RouteService.StartNextPointPair | backend/services/route_service.py:605-738 | the session ends at `Feed`'s progress, with its calls issued; a finished route is Arrived and removed |
| Routes.RouteService.FeedFrom | backend/services/route_service.py:605-738 | the recursion over the mutable session, one level per call, does what `Feed` specifies |
| Routes.RouteService.StartRouteCruise | backend/services/route_service.py:424-469 | fewer than two waypoints, or no segment, fail with no new session; otherwise a prior session is stopped and a Running session at the start, with zero counters, begins the feed |
| Routes.RouteService.Launch | backend/services/route_service.py:446-469 | a new Running session on the route begins the feed from the start |
| Routes.RouteService.Run | backend/services/route_service.py:452-469 | the session is Running and fed once; it is removed when the feed finishes |
| Routes.RouteService.PauseRouteCruise | backend/services/route_service.py:471-487 | pausing succeeds only from Running and leaves the progress |
| Routes.RouteService.ResumeRouteCruise | backend/services/route_service.py:489-505 | resuming succeeds only from Paused and leaves the progress |
| Routes.RouteService.StopRouteCruise | backend/services/route_service.py:507-523 | no session is a no-op notice; otherwise the session is stopped and removed |
| Routes.RouteService.RerouteAndResume | backend/services/route_service.py:525-580 | rerouting succeeds only from Paused with a segment left; the router's path to the segment's target becomes the reroute and the feed continues from it |
| Routes.RouteService.SetRouteSpeed | backend/services/route_service.py:582-594 | no session fails; otherwise the speed is `max(0.1, v)`, stored and passed to the cruise engine, with state and progress unchanged |
| Routes.RouteService.OnPointArrival | backend/services/route_service.py:740-766 | nothing happens unless the session is Running; otherwise the travelled distance is added, `Arrive` advances the progress and the feed continues from there |

## Left out

- I/O is not modelled. That covers files, subprocesses (`xcrun`, `pymobiledevice3`, `osascript`, `pkexec`), HTTP, sockets, logging and environment variables. Their results are parameters: a `FileRead`, a `saveOk` flag, parsed JSON values, a `StartAttempt`, a tunneld answer.
- Concurrency is not modelled: asyncio tasks and their cancellation, `asyncio.Lock`, `call_soon_threadsafe`, and the async generator of `subscribe`. The bus records a scheduled publish in a ghost list `scheduled`. Subscribing and unsubscribing are separate methods.
- Time and randomness are parameters or left out: `time.time()` is a parameter, and the random jitter of the cruise interval is left out.
- Floating point is modelled as reals. Distances, bearings and moves are abstract functions, and numbers in favorite lines are read and printed by the abstract `FloatText`.
- python-backend/services/coordinate_utils.py is not part of this model, and neither are location_service.py, port_forward_service.py, last_location_service.py, brouter_service.py and the JSON-RPC / HTTP entry points. The router and the distance are abstract functions.
- The shown cruise service file does not define `arrival_threshold_km`. `RouteModel.ArrivalThresholdKm` follows what python-backend/tests/test_route_speed.py:38-58 expects of it: `speed / 720000` km for a positive speed, and `1e-6` km otherwise. The fixed `ARRIVAL_THRESHOLD_KM` of python-backend/services/cruise_service.py:27 is used by the cruise service itself.
- The functions the route service calls on its cruise engine are not part of this model: `on_arrival`, `remove_arrival_callback` and `cleanup_session`. They are entries in the ghost call log.
- The route service's `get_route`, `get_route_session`, `get_route_status`, `stop_all` and the `to_dict` forms of waypoints, segments, routes and sessions are left out. They only read and format state.
- Routes.RouteService.OnPointArrival: the travelled distance read from the cruise status is an `Option<real>` parameter rather than a dictionary lookup.
- Routes.RouteService.RerouteAndResume: `is_bridging` is not cleared when a reroute starts, as in the code. The feed then takes the reroute path first.
- Routes.RouteService.SetLoopMode: as in the code, disabling loop mode while a running session is at or past the closure keeps the closure for good. `RouteShape.UndoAfterClosureKeptDangles` and `RouteShape.AddAfterClosureKeptBreaksShape` state what later edits then do.
- RouteModel.Feed and Routes.RouteService.FeedFrom: CPython's recursion limit (about 1000 frames) is not modelled. When no leg is ever reached in loop mode, the code wraps around level after level, each time bumping `loops_completed` and emitting `routeLoopComplete` (backend/services/route_service.py:653-665), until `RecursionError`. The model stops at the second wrap-around with the outcome `Diverged`, with the counters and events of the levels up to there. In the other direction, a run of more than about 1000 consecutive pairs below the arrival threshold (backend/services/route_service.py:633-637, 726-729) raises `RecursionError` in the code, while the model skips the whole run and sends the next leg.
- RouteShape.UndoAfterAdd, RouteShape.Canonical and the route edits `AddWaypoint`, `UndoWaypoint` and `SetLoopMode`: the model assumes that the router gives the same endpoints the same answer every time. The real router asks brouter over HTTP, and falls back to the straight line on an HTTP error, a timeout or an empty answer (backend/services/brouter_service.py:65-79, 103-141). Two calls for the same endpoints can therefore differ. Undo in loop mode routes the new closure again (backend/services/route_service.py:307-309), so with a different answer undo does not restore the route exactly.
- Cruise.CruiseService.SetCruiseSpeed: the code clamps to [1, 50], while python-backend/tests/test_cruise.py:212-229 expects a 0.1 minimum and no upper bound. The code is modelled.
- Cruise.CruiseService.Tick:
  - a failing location callback is not modelled, and the code ignores it anyway;
  - of the loop's exception handler, only the path through a missing registry key is modelled.
- Cruise.CruiseService.StopAll: sessions are stopped in an unspecified order. The model states the resulting set, the count of events and that every stopped device has one, not their order.
- Favorites:
  - universal-newline translation of the file is not modelled;
  - a name over several lines is not modelled;
  - `_ensure_file_exists` is left out;
  - `reload` is `Load`.
- Favorites.FavoritesService.Add: a name made only of whitespace is stored as the empty string. As in the code, only an empty name gets the default `"lat, lon"`.
- Text.ParseDigits: `int()` of text with underscores or non-ASCII digits is not modelled.
- Json.Get: a dictionary is an insertion-ordered list of entries, and duplicate keys do not occur in parsed JSON. `get` takes the first entry.
- Devices.DeviceManager.UpdateTunnel: devices are values, so aliasing between a returned device and the cached list is not modelled. The cached entry is replaced instead.
- Favorites.FavoritesService.GetAll: `get_all` returns a copy of the list, but the `Favorite` objects in it are shared with the service, and `update` renames them in place. Favorites are values here, so a renamed favorite is not seen through an earlier `get_all` result.
- Devices.SimulatorStep: a non-string `udid` or `name` ends the pass, where Python would store the value as it is.
- Devices.CliStep: a truthy identifier that is not a string (a number, say), and a non-string `DeviceName` or `ProductType`, end the pass, where Python would store the value as it is in the `Device`.
- Devices.Members: iterating a JSON value that is not a list is reduced to whether its first element is a dictionary.
- Devices.Upper: only ASCII letters are upper-cased.
- Devices.Native: a missing library, and a failed `list_devices`, are both the `None` listing.
- TunnelManagement: `ensure_tunneld`, `_is_tunneld_running`, the `_start_*` and `_stop_*` platform helpers, `_wait_for_tunnel`, `_parse_tunnel_from_log` and `_find_python_with_pymobiledevice3` are left out.
- TunnelManagement: the backend's `set_event_emitter` and `_emit_tunneld_status` are left out.
- TunnelManagement: `last_queried` is never written by the code, and the model keeps it.
- The Python backend's models.py is not part of this model: backend/models.py stands in for it.
