# Winix C545 air purifier adapter — a Dafny model

This project models the device-state translation layer of the
`homebridge-winix-c545` accessory (`index.js`). The layer sits between a
home-automation host (Homebridge/HomeKit characteristics) and the Winix cloud
API. It has two parts:

* **Value mappings** (module `Mapping`, with `Decimal` for the number/text
  conversions): vendor status codes to host characteristic values (power to
  Active and CurrentAirPurifierState, mode to TargetAirPurifierState, speed
  level to a rotation-speed percentage, air-quality level to AirQuality) and
  host values to vendor command values (`"01"`/`"02"` for mode, the speed
  bucket code, `1`/`0` for plasmawave, the raw Active value for power); the
  projection `parseInt(attributes[code], 10) || 0`; the control path
  `<control base>/<code>:<value>`.
* **The adapter** (module `Adapter`, class `WinixC545`): the `device` record,
  unset until a status read assigns it and replaced wholesale by every read
  that returns a device list;
  the discovery guard in front of every get/set handler; the host
  characteristics that a successful power or mode switch updates; and a ghost
  log of every request URL the adapter issues.

HTTP is not modelled. A status read's outcome (`FetchOutcome`: failed, or the
device list it returned) and a control request's success (`succeeded`) are
parameters of the methods. A handler answers with a `Reply`: a value, an
error (`NotDiscovered`, `RequestFailed`), or `NoCallback` when the code never
calls its callback.

Behaviours of `index.js` that the model states explicitly:

* A get handler whose status read fails never calls its callback: there is no
  `.catch` (index.js:123-127 and the other get handlers); the model answers
  `NoCallback`.
* The power command carries the raw `state`, unpadded (index.js:136), so
  `A02:1` and not `A02:01`.
* An empty device list assigns the snapshot (to `undefined`) before reading
  `.attributes` fails (index.js:110-113), so the adapter becomes undiscovered
  again.
* Every get handler goes through `getStatusesFromServer` (index.js:100-115), so
  every get also replaces the snapshot; the model states this for each handler.

## Model

| member | source | states |
|---|---|---|
| `Decimal.LeadingDigits` | index.js:104 | the part of a text that parseInt reads is its longest prefix of decimal digits: a prefix, all digits, and followed by a non-digit or the end |
| `Decimal.ParseInt` | index.js:104 | parseInt yields NaN exactly when the text is empty or does not start with a digit |
| `Decimal.ParseIntOrZero` | index.js:104 | `parseInt(v, 10) \|\| 0` is the parsed number, and 0 whenever parseInt yields NaN |
| `Decimal.IntToString` | index.js:136 | an integer renders as its digits when non-negative; a negative one starts with '-', which parseInt (as modelled) cannot read |
| `Decimal.NatToString` | index.js:136 | a number renders as a non-empty digit string with no leading zero unless the number is 0 |
| `Decimal.DigitsValueOfNatToString` | index.js:104 | the value of a rendered number's digits is the number |
| `Decimal.LeadingDigitsOfDigitsThen` | index.js:104 | parseInt reads a digit string up to the first non-digit that follows it |
| `Decimal.ParseNatToString` | index.js:104 | parsing a rendered number, followed by any non-digit text, gives the number back |
| `Decimal.ZeroPad2` | index.js:174 | the two-digit zero-padded form of a number below 100 is two digits and parses back to the number |
| `Mapping.StatusOf` | index.js:100-105 | the projected status is the parsed attribute; a missing code or text parseInt cannot read gives 0, so the projection never fails |
| `Mapping.ActiveFromStatus` | index.js:124 | the power status reads ACTIVE exactly when it is nonzero |
| `Mapping.CurrentStateFromStatus` | index.js:153 | the power status reads PURIFYING_AIR exactly when it is nonzero |
| `Mapping.TargetStateFromStatus` | index.js:164 | the mode status reads AUTO exactly when it is 1; 2, 0 and all others read MANUAL |
| `Mapping.AirQualityFromStatus` | index.js:253-265 | 1, 2, 3 read GOOD, FAIR, POOR, each exactly for that level; every other level reads UNKNOWN |
| `Mapping.PercentFromStatus` | index.js:194-208 | a speed read is one of 0, 25, 50, 75, 100; it is nonzero exactly for levels 1, 2, 3, 5, and then 25 times the level's rank |
| `Mapping.SpeedCode` | index.js:221-234 | every integer percentage, below 0 and above 100 included, maps to one of "01", "02", "03", "05" |
| `Mapping.SelectSpeedCode` | index.js:221-234 | the overriding if-chain picks exactly the bucket code: up to 25 "01", up to 50 "02", up to 75 "03", above "05" |
| `Mapping.ModeValue` | index.js:174 | the mode command value is 1 zero-padded for a truthy state and 2 zero-padded for 0 |
| `Mapping.PlasmawaveValue` | index.js:290 | the plasmawave command value is the unpadded 1 when on and 0 when off |
| `Mapping.ControlPath` | index.js:136 | a control path is the control base, "/", the status code, ":" and the value, each recoverable at its position |
| `Mapping.ControlPathDetermines` | index.js:136 | two control paths on the same base with equally long codes are equal only when code and value are |
| `Mapping.PowerReadsAgree` | index.js:123-154 | Active reads ACTIVE exactly when CurrentAirPurifierState reads PURIFYING_AIR |
| `Mapping.SpeedGetThenSet` | index.js:194-234 | for levels 1, 2, 3, 5, setting the percentage a speed read reports sends that level zero-padded to two digits |
| `Mapping.SpeedSetThenGet` | index.js:194-236 | a device echoing the speed code it was sent reads back the least of 25/50/75/100 at or above the requested percentage (100 above 100): a lossy ceiling |
| `Mapping.PowerEcho` | index.js:123-136 | a device echoing the raw Active value it was sent reads back ACTIVE exactly for a nonzero value |
| `Mapping.ModeEcho` | index.js:163-176 | a device echoing the mode value it was sent reads back AUTO exactly for a truthy state |
| `Mapping.PlasmawaveEcho` | index.js:278-292 | a device echoing the plasmawave value it was sent reads back 1 when on and 0 when off |
| `Adapter.FetchedDevice` | index.js:108-115 | a failed read keeps the record; a read that returns a non-empty list replaces it with the first device whatever it was, and an empty list unsets it |
| `Adapter.FetchedAttributes` | index.js:108-115 | a read resolves exactly when it returns a non-empty list, and then with the new record's attribute map |
| `Adapter.Observed` | index.js:100-106 | a single-code read resolves exactly when the full read does, with the projection of that code |
| `Adapter.WinixC545.constructor` | index.js:12-31 | a deviceId is required; the control and status URLs end in it; the adapter starts undiscovered with no characteristic pushed; the initial status read is the separate `Init` step |
| `Adapter.WinixC545.Init` | index.js:84-98 | the initial status read the constructor triggers: one status request whose outcome decides the record |
| `Adapter.WinixC545.GetStatusesFromServer` | index.js:108-115 | one status request; the record is replaced wholesale by data[0], unset by an empty list, kept on failure; the returned map is the new record's attributes |
| `Adapter.WinixC545.GetStatusFromServer` | index.js:100-106 | as the full read, returning the projection of one code |
| `Adapter.WinixC545.GetActiveState` | index.js:117-128 | undiscovered: NotDiscovered, no request, nothing changed; otherwise one status read and the Active reading of the power status, no callback if the read fails |
| `Adapter.WinixC545.SetActiveState` | index.js:130-144 | undiscovered: NotDiscovered, nothing changed; otherwise exactly one request `A02:<state>`; on success Active takes `state`, on failure RequestFailed and Active unchanged |
| `Adapter.WinixC545.GetCurrentAirPurifierState` | index.js:146-155 | as GetActiveState, answering the CurrentAirPurifierState reading of the power status |
| `Adapter.WinixC545.GetTargetAirPurifierState` | index.js:157-166 | as GetActiveState, answering the TargetAirPurifierState reading of the mode status |
| `Adapter.WinixC545.SetTargetAirPurifierState` | index.js:168-184 | undiscovered: NotDiscovered, nothing changed; otherwise exactly one request `A03:01` or `A03:02`; on success the target state takes `state`, on failure unchanged |
| `Adapter.WinixC545.GetRotationSpeed` | index.js:186-213 | as GetActiveState, answering the percentage of the speed level |
| `Adapter.WinixC545.SetRotationSpeed` | index.js:215-243 | undiscovered: NotDiscovered, nothing changed; otherwise exactly one request `A04:<speed code>`; no characteristic changes either way |
| `Adapter.WinixC545.GetAirQuality` | index.js:245-270 | as GetActiveState, answering the AirQuality reading of the air-quality level |
| `Adapter.WinixC545.GetPlasmawave` | index.js:272-282 | as GetActiveState, answering the projected plasmawave status unchanged |
| `Adapter.WinixC545.SetPlasmawave` | index.js:284-299 | undiscovered: NotDiscovered, nothing changed; otherwise exactly one request `A07:1` or `A07:0`; no characteristic changes either way |
| `Adapter.DiscoverySession` | index.js:108-144 | a set before discovery fails with NotDiscovered; after a read returning one device, a power read reports that device's power status and a switch-off answers as the request did |

## Left out

- Adapter.WinixC545.constructor: the initial status read that the constructor issues through `this.init()` (index.js:84, 97, 109) is modelled as the separate `Init` step; the request enters the log, and the read's outcome the record, only when a client calls `Init`, so the model lets a handler run before it, twice, or without it.

- HTTP: the axios requests and the vendor endpoints are not modelled; their outcomes are method parameters, and the request log records only the URL.
- Homebridge registration and HAP service wiring (index.js:5-10, 33-82), `identify` and `getServices`, and logging: host plumbing with no translation logic.
- The numeric values of the HAP characteristic constants live in the host library; the read mappings return enum constructors, while the set handlers take and store the host's raw integer (`state`), as the code interpolates and stores it.
- Configuration defaults (display names, the show-air-quality and show-plasmawave flags): they only choose which services are registered. The missing-deviceId error is the constructor's precondition.
- Callbacks and promises: the order of the callback and `updateValue` in `setTargetAirPurifierState` is not modelled; each handler is one atomic step, and concurrent in-flight handlers are out of scope.
- JavaScript parseInt: leading whitespace, a sign and radix prefixes are not modelled (a negative reported status therefore reads 0 here); attribute values that the vendor sends as JSON numbers are represented by their decimal text.
- A device record without an `attributes` field, and a `null` first device, are not modelled: the snapshot always carries an attribute map.
- Truthiness of non-integer inputs: set handlers take integers (booleans for plasmawave), and rotation speeds are integers rather than floating-point numbers.
