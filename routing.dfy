/**
 * The routing of main.go's attachHcHandlers: each accessory's on/off,
 * brightness and colour-temperature characteristics get a remote-update
 * callback that closes over the hub and one bulb ID, so a controller's change
 * to an accessory only ever reaches that bulb's resource path.
 */
module Routing {
  import opened Wrappers
  import opened Decimal
  import opened Payload
  import opened Hub

  /** A registered callback: the hub and the bulb ID it closes over. */
  datatype Handler = Handler(hub: TradfriHub, bulbID: string)

  /** A bulb accessory's three remote-update callback slots. */
  class TradfriBulb {
    var onHandler: Option<Handler>
    var brightnessHandler: Option<Handler>
    var temperatureHandler: Option<Handler>

    constructor ()
      ensures onHandler == None && brightnessHandler == None && temperatureHandler == None
    {
      onHandler, brightnessHandler, temperatureHandler := None, None, None;
    }

    /** A controller switched the accessory on or off. */
    method RemoteUpdateOn(on: bool)
      modifies if onHandler.Some? then {onHandler.value.hub.conn} else {}
      ensures onHandler.Some? ==>
        var h := onHandler.value;
        h.hub.conn.sent == old(h.hub.conn.sent) + [PutRequest(h.bulbID, PowerBody(on))]
    {
      if onHandler.Some? {
        onHandler.value.hub.SetBulbPower(onHandler.value.bulbID, on);
      }
    }

    /** A controller changed the accessory's brightness. */
    method RemoteUpdateBrightness(brightness: Int64)
      modifies if brightnessHandler.Some? then {brightnessHandler.value.hub.conn} else {}
      ensures brightnessHandler.Some? ==>
        var h := brightnessHandler.value;
        h.hub.conn.sent == old(h.hub.conn.sent) + [PutRequest(h.bulbID, BrightnessBody(brightness))]
    {
      if brightnessHandler.Some? {
        brightnessHandler.value.hub.SetBulbBrightness(brightnessHandler.value.bulbID, brightness);
      }
    }

    /** A controller changed the accessory's colour temperature. */
    method RemoteUpdateTemperature(temp: Int64)
      modifies if temperatureHandler.Some? then {temperatureHandler.value.hub.conn} else {}
      ensures temperatureHandler.Some? ==>
        var h := temperatureHandler.value;
        h.hub.conn.sent == old(h.hub.conn.sent) + [PutRequest(h.bulbID, TemperatureBody(temp))]
    {
      if temperatureHandler.Some? {
        temperatureHandler.value.hub.SetBulbTemperature(temperatureHandler.value.bulbID, temp);
      }
    }
  }

  /** Binds all three of the accessory's callbacks to the hub and bulbID. */
  method AttachHcHandlers(hub: TradfriHub, bulbID: string, acc: TradfriBulb)
    modifies acc
    ensures acc.onHandler == Some(Handler(hub, bulbID))
    ensures acc.brightnessHandler == Some(Handler(hub, bulbID))
    ensures acc.temperatureHandler == Some(Handler(hub, bulbID))
  {
    acc.onHandler := Some(Handler(hub, bulbID));
    acc.brightnessHandler := Some(Handler(hub, bulbID));
    acc.temperatureHandler := Some(Handler(hub, bulbID));
  }

  /**
   * Attaching an accessory to bulbID and then switching it sends one power
   * PUT to bulbID's path, and so none to the path of any other bulb.
   */
  method AttachThenPower(hub: TradfriHub, bulbID: string, other: string, acc: TradfriBulb, on: bool)
    requires other != bulbID
    modifies acc, hub.conn
    ensures hub.conn.sent == old(hub.conn.sent) + [PutRequest(bulbID, PowerBody(on))]
    ensures hub.conn.sent[|hub.conn.sent| - 1].uri != BulbPath(other)
  {
    AttachHcHandlers(hub, bulbID, acc);
    acc.RemoteUpdateOn(on);
    BulbPathInjective(bulbID, other);
  }

  /** As AttachThenPower, for a brightness change. */
  method AttachThenBrightness(hub: TradfriHub, bulbID: string, other: string, acc: TradfriBulb, brightness: Int64)
    requires other != bulbID
    modifies acc, hub.conn
    ensures hub.conn.sent == old(hub.conn.sent) + [PutRequest(bulbID, BrightnessBody(brightness))]
    ensures hub.conn.sent[|hub.conn.sent| - 1].uri != BulbPath(other)
  {
    AttachHcHandlers(hub, bulbID, acc);
    acc.RemoteUpdateBrightness(brightness);
    BulbPathInjective(bulbID, other);
  }

  /** As AttachThenPower, for a colour-temperature change. */
  method AttachThenTemperature(hub: TradfriHub, bulbID: string, other: string, acc: TradfriBulb, temp: Int64)
    requires other != bulbID
    modifies acc, hub.conn
    ensures hub.conn.sent == old(hub.conn.sent) + [PutRequest(bulbID, TemperatureBody(temp))]
    ensures hub.conn.sent[|hub.conn.sent| - 1].uri != BulbPath(other)
  {
    AttachHcHandlers(hub, bulbID, acc);
    acc.RemoteUpdateTemperature(temp);
    BulbPathInjective(bulbID, other);
  }

  /**
   * The two lamps main.go registers, "65538" and "65537": switching the first
   * accessory on sends one PUT to /15001/65538 and nothing to /15001/65537.
   */
  method TwoLampPowerOn(host: string) returns (hub: TradfriHub, acc: TradfriBulb, acc2: TradfriBulb)
    ensures fresh(hub) && fresh(hub.conn)
    ensures hub.conn.sent == [PutRequest("65538", PowerBody(true))]
    ensures hub.conn.sent[0].uri == "/15001/65538"
    ensures forall r :: r in hub.conn.sent ==> r.uri != "/15001/65537"
  {
    var conn := new Connection.Open();
    hub := new TradfriHub(host, conn);
    acc := new TradfriBulb();
    acc2 := new TradfriBulb();
    AttachHcHandlers(hub, "65538", acc);
    AttachHcHandlers(hub, "65537", acc2);
    acc.RemoteUpdateOn(true);
    BulbPathInjective("65538", "65537");
  }

  /**
   * A failed PUT for one bulb does not stop the next command: after commands
   * to bulbs a and b, both requests are on the connection, whatever the
   * gateway answered to the first.
   */
  method ConsecutiveCommands(hub: TradfriHub, a: string, b: string, on: bool)
    modifies hub.conn
    ensures unchanged(hub)
    ensures hub.conn.sent == old(hub.conn.sent) + [PutRequest(a, PowerBody(on)), PutRequest(b, PowerBody(on))]
  {
    hub.SetBulbPower(a, on);
    hub.SetBulbPower(b, on);
  }
}
