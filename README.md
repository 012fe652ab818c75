# homekit-tradfri: command translation and dispatch

A model of the bridge between an accessory-protocol controller and an IKEA
Tradfri gateway, as `main.go` implements it. When a controller changes a
bulb accessory's on/off, brightness or colour-temperature characteristic, a
callback bound to one bulb ID translates the change into the gateway's JSON
body and sends it as one confirmable CoAP PUT to `/15001/<bulbID>` over the
hub's DTLS connection.

Modules:

- `Decimal` (decimal.dfy): the text Go's `%d` verb writes for an integer,
  and a parser that reads back exactly those texts. Go's `int` is at most 64 bits;
  the encoders do no arithmetic, so the model takes every 64-bit value
  (`Int64`) and nothing wraps.
- `Payload` (payload.dfy): the command translator. `Render` gives the body
  byte for byte as the `fmt.Sprintf` templates write it, with the newlines
  and tabs of Go's raw string literals. Each body holds one control entry
  inside the single-element `"3311"` array: key `5850` (on/off), `5851`
  (brightness) or `5706` (colour). `Decode` reads a body back as that one
  entry. It is the partner of `Render`: the two are proved inverse in both
  directions, so a body determines its command exactly. `TemperatureColor`
  is the three-bucket rule. It is specified as "each threshold in
  `[200, 300]` that the temperature reaches moves the colour one preset
  warmer".
- `Hub` (hub.dfy): the `tradfriHub` with its `host` and `conn` fields. The
  connection is modelled by the ghost log of requests handed to `Send`.
  The gateway's answer is nondeterministic. `setBulb` ignores a failed answer
  apart from logging it, so each command appends exactly one PUT and the
  hub's fields stay unchanged.
- `Routing` (routing.dfy): `attachHcHandlers` and the three callbacks it
  registers on a bulb accessory. It also holds the two-lamp set-up of `main`,
  and two commands in a row as a client of the hub.

What the code does on these points:

- A failed PUT is logged and dropped. It is not reported to the caller.
- Brightness is any Go `int`. It is not limited to 0..100.
- `getBulbStatus` panics when the send fails and ignores JSON decoding errors.

## Model

| member | source | states |
|---|---|---|
| Decimal.ParseFormat | main.go:136-148 | the `%d` text of every integer parses back to that integer |
| Decimal.FormatParse | main.go:136-148 | only `%d` texts parse: any text that parses to n is exactly n's `%d` text |
| Payload.DecodeRender | main.go:136-167 | every rendered body reads back as the one control entry it was made from |
| Payload.RenderDecode | main.go:136-167 | a text that reads as a control entry is exactly that entry's rendered body |
| Payload.RenderIsInjective | main.go:136-167 | two bodies are equal iff their control entries are equal |
| Payload.PowerBody | main.go:131-141 | the body carries value 1 under key 5850 iff on, and value 0 iff off |
| Payload.BrightnessBody | main.go:143-149 | the body carries the brightness unchanged under key 5851, for every 64-bit integer |
| Payload.TemperatureColor | main.go:151-159 | the preset is the whitest one moved one step warmer for each threshold in [200, 300] that t reaches |
| Payload.TemperatureBuckets | main.go:152-159 | f5faf6 iff t < 200, f1e0b5 iff 200 <= t < 300, efd275 iff t >= 300: exactly one preset for every integer |
| Payload.TemperatureBoundaries | main.go:153-158 | 199 gives f5faf6, 200 and 299 give f1e0b5, 300 gives efd275 |
| Payload.TemperatureMonotone | main.go:152-159 | a higher temperature never gives a whiter preset |
| Payload.TemperatureBody | main.go:163-167 | the body carries the bucketed preset, one of the three, as a string under key 5706 |
| Hub.BulbPathInjective | main.go:123 | two bulb paths `"/15001/" + id` are equal iff the IDs are equal |
| Hub.Connection.Send | main.go:125 | sending appends the request to the connection's log; the answer may be a response or an error |
| Hub.TradfriHub.constructor | main.go:90-93 | a hub holds the gateway's host string and its connection |
| Hub.TradfriHub.SetBulb | main.go:121-129 | appends exactly one confirmable PUT to `"/15001/" + bulbID` with the given body, whatever the gateway answers; host and conn unchanged |
| Hub.TradfriHub.SetBulbPower | main.go:131-141 | appends exactly one PUT to the bulb's path whose body reads as on/off value 1 when on and 0 when off |
| Hub.TradfriHub.SetBulbBrightness | main.go:143-149 | appends exactly one PUT to the bulb's path whose body reads as the brightness unchanged |
| Hub.TradfriHub.SetBulbTemperature | main.go:151-168 | appends exactly one PUT to the bulb's path whose body reads as the bucketed colour preset |
| Hub.TradfriHub.GetBulbStatus | main.go:108-113 | appends exactly one confirmable GET of `"/15001/" + id` with an empty body |
| Routing.AttachHcHandlers | main.go:37-50 | all three of the accessory's callbacks are bound to this hub and this bulb ID |
| Routing.TradfriBulb.RemoteUpdateOn | main.go:38-41 | an on/off change sends one power PUT to the bound bulb's path and nothing else |
| Routing.TradfriBulb.RemoteUpdateBrightness | main.go:42-45 | a brightness change sends one brightness PUT to the bound bulb's path and nothing else |
| Routing.TradfriBulb.RemoteUpdateTemperature | main.go:46-49 | a temperature change sends one colour PUT to the bound bulb's path and nothing else |
| Routing.TradfriBulb.constructor | tradfribulb.go:38-50 | a new accessory has no callbacks bound |
| Routing.AttachThenPower | main.go:37-41 | after attaching to bulbID, an on/off change appends exactly one power PUT to bulbID's path and none to any other bulb's path |
| Routing.AttachThenBrightness | main.go:37-45 | after attaching to bulbID, a brightness change appends exactly one brightness PUT to bulbID's path and none to any other bulb's path |
| Routing.AttachThenTemperature | main.go:37-50 | after attaching to bulbID, a temperature change appends exactly one colour PUT to bulbID's path and none to any other bulb's path |
| Routing.TwoLampPowerOn | main.go:60-66 | with lamps 65538 and 65537 bound, switching the first on sends one PUT to /15001/65538 and none to /15001/65537 |
| Routing.ConsecutiveCommands | main.go:125-128 | two commands in a row both reach the connection, whatever the gateway answered to the first |

## Left out

- `browseForTradfriHub` (mDNS discovery through bonjour, a channel and a blocking receive): network I/O and concurrency.
- `initTradfriHub` (DTLS dial through canopus, pre-shared key from the environment): a foreign call. The host is an opaque string, and the connection is an open log.
- `main`: building accessory info, the IP transport, `go t.Start()`, signal handling and the endless select loop are process plumbing. Only the two `attachHcHandlers` calls appear, in `Routing.TwoLampPowerOn`.
- Hub.TradfriHub.GetBulbStatus: returns the reply as it came. On a send error the source panics, and the model returns the error instead. Decoding the JSON body into `tradfriCOAPResponse` is done by `encoding/json`, with its error ignored, and is not part of the model.
- Hub.Connection.Send: the log records every request handed to the connection, not whether the gateway applied it. CoAP retransmission and the DTLS session are not modelled.
- Routing.AttachHcHandlers: a characteristic holds one callback slot, which a second attach overwrites. The accessory library's own callback lists are not part of the model. `main` attaches each accessory once, so the two agree there.
- Routing.TradfriBulb.constructor: the accessory's initial characteristic values (brightness 100, off, temperature 200) and the library service construction in tradfribulb.go are library glue and are not modelled.
- Logging (main.go:40, 44, 48, 127, 161) is not modelled.
- Concurrent callbacks sharing one connection: the code has no locking. The model runs one command at a time.
