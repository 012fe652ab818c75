/**
 * The hub session of main.go: a tradfriHub holds the gateway's host string and
 * its DTLS connection, and every bulb command becomes exactly one confirmable
 * PUT to the bulb's resource path. The connection is modelled by the log of
 * requests handed to it; whether the gateway acknowledges a request is outside
 * the model's control and is chosen nondeterministically.
 */
module Hub {
  import opened Wrappers
  import opened Decimal
  import opened Payload

  datatype MessageType = Confirmable | NonConfirmable
  datatype Code = Get | Put
  datatype Request = Request(kind: MessageType, code: Code, uri: string, payload: string)

  /** What a send comes back with: the response's payload, or the transport's error. */
  datatype Reply = Response(payload: string) | SendError(reason: string)

  /** Prefix of every bulb's resource path on the gateway. */
  const DevicesPath := "/15001/"

  /** The resource path of a bulb. */
  function BulbPath(bulbID: string): (path: string)
    ensures |path| == |DevicesPath| + |bulbID| && path[..|DevicesPath|] == DevicesPath
    ensures path[|DevicesPath|..] == bulbID
  {
    DevicesPath + bulbID
  }

  /** Distinct bulbs have distinct paths, so a request for one never lands on another. */
  lemma BulbPathInjective(a: string, b: string)
    ensures BulbPath(a) == BulbPath(b) <==> a == b
  {
  }

  /** The confirmable PUT that setBulb sends. */
  function PutRequest(bulbID: string, data: string): Request {
    Request(Confirmable, Put, BulbPath(bulbID), data)
  }

  /** The open DTLS connection to the gateway. */
  class Connection {
    /** Every request handed to Send, oldest first. */
    ghost var sent: seq<Request>

    constructor Open()
      ensures sent == []
    {
      sent := [];
    }

    /** Sends one request and waits for the gateway's answer or an error. */
    method Send(req: Request) returns (reply: Reply)
      modifies this
      ensures sent == old(sent) + [req]
    {
      sent := sent + [req];
      reply :| true;
    }
  }

  class TradfriHub {
    var host: string
    var conn: Connection

    constructor (host: string, conn: Connection)
      ensures this.host == host && this.conn == conn
    {
      this.host := host;
      this.conn := conn;
    }

    /** One confirmable PUT of data to the bulb's path; a failed send is only logged. */
    method SetBulb(bulbID: string, data: string)
      modifies conn
      ensures unchanged(this)
      ensures conn.sent == old(conn.sent) + [PutRequest(bulbID, data)]
    {
      var req := PutRequest(bulbID, data);
      var reply := conn.Send(req);
      if reply.SendError? {
        // The error is logged and dropped: it neither aborts nor changes the hub.
      }
    }

    method SetBulbPower(bulbID: string, on: bool)
      modifies conn
      ensures unchanged(this)
      ensures conn.sent == old(conn.sent) + [PutRequest(bulbID, PowerBody(on))]
      ensures Decode(conn.sent[|conn.sent| - 1].payload) == Some(Power(if on then 1 else 0))
    {
      var onInt := 0;
      if on {
        onInt := 1;
      }
      SetBulb(bulbID, Render(Power(onInt)));
    }

    method SetBulbBrightness(bulbID: string, b: Int64)
      modifies conn
      ensures unchanged(this)
      ensures conn.sent == old(conn.sent) + [PutRequest(bulbID, BrightnessBody(b))]
      ensures Decode(conn.sent[|conn.sent| - 1].payload) == Some(Dimmer(b))
    {
      SetBulb(bulbID, Render(Dimmer(b)));
    }

    method SetBulbTemperature(bulbID: string, t: Int64)
      modifies conn
      ensures unchanged(this)
      ensures conn.sent == old(conn.sent) + [PutRequest(bulbID, TemperatureBody(t))]
      ensures Decode(conn.sent[|conn.sent| - 1].payload) == Some(ColorHex(TemperatureColor(t)))
    {
      var color;
      if t < 200 {
        color := Whitest;
      } else if t < 300 {
        color := Neutral;
      } else {
        color := Reddest;
      }
      SetBulb(bulbID, Render(ColorHex(color)));
    }

    /**
     * One confirmable GET of the bulb's path. The reply is returned as it
     * came; decoding its JSON body is not part of the model.
     */
    method GetBulbStatus(bulbID: string) returns (reply: Reply)
      modifies conn
      ensures unchanged(this)
      ensures conn.sent == old(conn.sent) + [Request(Confirmable, Get, BulbPath(bulbID), "")]
    {
      var req := Request(Confirmable, Get, BulbPath(bulbID), "");
      reply := conn.Send(req);
    }
  }
}
