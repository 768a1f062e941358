/** The server's `handle_input`: pack the received event and hand the
    datagram to the UDP socket, dropping it silently on any failure. */
module Relay {
  import opened Common
  import opened Gamepad
  import opened ControlPacket
  import opened ClientPage

  /** The relay of one server build; `sent` lists the datagrams that left
      through `sock.sendto`, oldest first. */
  class ControlRelay {
    const variant: Variant
    var sent: seq<Bytes>

    constructor (variant: Variant)
      ensures this.variant == variant && sent == []
    {
      this.variant := variant;
      sent := [];
    }

    /** One `input_data` event.  `delivered` is the outcome of sendto (it
        raises, for one, while the receiver address does not resolve); a
        failed pack or send is swallowed and nothing is sent, nothing retried. */
    method HandleInput(data: Value, delivered: bool)
      modifies this
      ensures sent == old(sent) +
        (if Pack(variant, data).Some? && delivered then [Pack(variant, data).value] else [])
    {
      var packet := Pack(variant, data);
      if packet.Some? && delivered {
        sent := sent + [packet.value];
      }
    }
  }

  /** The controls an event carries, when they fit the wire. */
  function EventControls(e: InputEvent): Controls
    requires 0 <= e.buttons < 0x1_0000
    requires 0 <= e.lx < 0x100 && 0 <= e.ly < 0x100 && 0 <= e.rx < 0x100 && 0 <= e.ry < 0x100
  {
    Controls(e.buttons, e.lx, e.ly, e.rx, e.ry)
  }

  /** Every event the page emits is packed and sent whole: main.py's page
      yields a 7-byte packet, main_linux.py's an 8-byte one whose first byte
      is the chosen player; decoding gives back the event's fields. */
  lemma EmittedEventsAlwaysPack(variant: Variant, player: Player, pad: Pad, am: AxisMap, bm: ButtonMap)
    ensures var e := SampleEvent(PlayerField(variant, player), pad, am, bm);
      && Pack(variant, EventJson(e)).Some?
      && (variant == Windows ==>
            DecodeSingle(Pack(variant, EventJson(e)).value) == Some(EventControls(e)))
      && (variant == Linux ==>
            DecodeTwoPlayer(Pack(variant, EventJson(e)).value) == Some(Command(player, EventControls(e))))
  {
    var e := SampleEvent(PlayerField(variant, player), pad, am, bm);
    var fields := EventJson(e).fields;
    assert ControlsOf(fields) == Some(EventControls(e));
    SingleRoundTrip(EventControls(e));
    TwoPlayerRoundTrip(Command(player, EventControls(e)));
  }
}
