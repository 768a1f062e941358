/** The binary control packet that `handle_input` builds with `struct.pack`
    and sends to the receiver: 7 bytes in main.py ('<HBBBBB'), 8 bytes in
    main_linux.py ('<BHBBBBB').  The packers are partial: any key that is
    missing or any argument struct.pack refuses makes the handler swallow the
    exception and send nothing, which is `None` here. */
module ControlPacket {
  import opened Common

  /** A decoded JSON value, as the Socket.IO server hands it to `handle_input`. */
  datatype Value =
    | Null
    | Bool(b: bool)
    | Int(i: int)       // a JSON number without fraction or exponent: a Python int
    | Float(r: real)    // any other JSON number: a Python float
    | Str(s: string)
    | Arr(items: seq<Value>)
    | Obj(fields: map<string, Value>)

  /** The two unsigned struct format codes the packets use. */
  datatype Code = B | H

  function Limit(c: Code): nat {
    match c
    case B => 0x100
    case H => 0x1_0000
  }

  /** struct.pack's conversion of one argument for an unsigned code: an
      integer (a bool is one) within the code's width; anything else raises
      struct.error. */
  function PackArg(v: Value, c: Code): (r: Option<nat>)
    ensures r.Some? ==> r.value < Limit(c)
    ensures v.Int? && r.Some? ==> r.value == v.i
    ensures v.Int? && 0 <= v.i < Limit(c) ==> r.Some?
    ensures v.Bool? ==> r == Some(if v.b then 1 else 0)
    ensures !v.Int? && !v.Bool? ==> r.None?
  {
    match v
    case Int(i) => if 0 <= i < Limit(c) then Some(i) else None
    case Bool(b) => Some(if b then 1 else 0)
    case _ => None
  }

  /** `data[key]` handed to struct.pack: a missing key raises KeyError. */
  function Arg(fields: map<string, Value>, key: string, c: Code): Option<nat> {
    if key in fields then PackArg(fields[key], c) else None
  }

  /** Python's int() truncates a float toward zero. */
  function TruncToZero(x: real): (n: int)
    ensures 0.0 <= x ==> n as real <= x < n as real + 1.0
    ensures x < 0.0 ==> n as real - 1.0 < x <= n as real
  {
    if 0.0 <= x then x.Floor else -((-x).Floor)
  }

  predicate IsDigits(s: string) {
    |s| > 0 && forall i | 0 <= i < |s| :: '0' <= s[i] <= '9'
  }

  /** The number an all-digits string denotes in base 10. */
  function DigitsValue(s: string): nat
    requires forall i | 0 <= i < |s| :: '0' <= s[i] <= '9'
  {
    if s == [] then 0
    else 10 * DigitsValue(s[..|s| - 1]) + (s[|s| - 1] as int - '0' as int)
  }

  /** Python's int() of a string of an optional sign and ASCII digits. */
  function ParseDecimal(s: string): Option<int> {
    if |s| > 0 && (s[0] == '+' || s[0] == '-') && IsDigits(s[1..]) then
      var n: int := DigitsValue(s[1..]);
      Some(if s[0] == '-' then -n else n)
    else if IsDigits(s) then Some(DigitsValue(s))
    else None
  }

  /** Python's int() applied to a decoded JSON value; None where it raises. */
  function PyInt(v: Value): Option<int> {
    match v
    case Int(i) => Some(i)
    case Bool(b) => Some(if b then 1 else 0)
    case Float(x) => Some(TruncToZero(x))
    case Str(s) => ParseDecimal(s)
    case _ => None
  }

  /** The controller state carried by both packet layouts. */
  datatype Controls = Controls(buttons: uint16, lx: uint8, ly: uint8, rx: uint8, ry: uint8)

  /** A two-player packet: the player id byte, then the controls. */
  datatype Command = Command(player: uint8, controls: Controls)

  /** The constant third struct argument (a centred hat switch). */
  const HatMarker: uint8 := 8

  /** '<HBBBBB': buttons little-endian at 0-1, the marker at 2, lx ly rx ry at 3-6. */
  function EncodeSingle(c: Controls): (p: Bytes)
    ensures |p| == 7
  {
    [c.buttons % 0x100, c.buttons / 0x100, HatMarker, c.lx, c.ly, c.rx, c.ry]
  }

  /** Reads a 7-byte packet back; None for a wrong length or marker. */
  function DecodeSingle(p: Bytes): Option<Controls> {
    if |p| == 7 && p[2] == HatMarker then
      Some(Controls(p[0] as int + 0x100 * p[1] as int, p[3], p[4], p[5], p[6]))
    else None
  }

  /** '<BHBBBBB': the player at 0, buttons little-endian at 1-2, the marker
      at 3, lx ly rx ry at 4-7. */
  function EncodeTwoPlayer(cmd: Command): (p: Bytes)
    ensures |p| == 8
  {
    var c := cmd.controls;
    [cmd.player, c.buttons % 0x100, c.buttons / 0x100, HatMarker, c.lx, c.ly, c.rx, c.ry]
  }

  /** Reads an 8-byte packet back; None for a wrong length or marker. */
  function DecodeTwoPlayer(p: Bytes): Option<Command> {
    if |p| == 8 && p[3] == HatMarker then
      Some(Command(p[0], Controls(p[1] as int + 0x100 * p[2] as int, p[4], p[5], p[6], p[7])))
    else None
  }

  /** The five controller arguments of both handlers, or None when reading
      or packing one of them raises. */
  function ControlsOf(fields: map<string, Value>): Option<Controls> {
    var b := Arg(fields, "buttons", H);
    var lx := Arg(fields, "lx", B);
    var ly := Arg(fields, "ly", B);
    var rx := Arg(fields, "rx", B);
    var ry := Arg(fields, "ry", B);
    if b.Some? && lx.Some? && ly.Some? && rx.Some? && ry.Some? then
      Some(Controls(b.value, lx.value, ly.value, rx.value, ry.value))
    else None
  }

  /** main.py's handler: the datagram it sends, or None when an exception
      is swallowed (a payload that is not an object cannot be indexed). */
  function PackSingle(data: Value): (r: Option<Bytes>)
    ensures r.Some? ==> |r.value| == 7 && DecodeSingle(r.value).Some?
    ensures !data.Obj? ==> r.None?
  {
    if !data.Obj? then None
    else
      match ControlsOf(data.fields)
      case Some(c) => SingleRoundTrip(c); Some(EncodeSingle(c))
      case None => None
  }

  /** The player id main_linux.py packs: int(data.get('player', 1)). */
  function PlayerOf(fields: map<string, Value>): Option<int> {
    if "player" in fields then PyInt(fields["player"]) else Some(1)
  }

  /** main_linux.py's handler: the datagram it sends, or None when an
      exception is swallowed. */
  function PackTwoPlayer(data: Value): (r: Option<Bytes>)
    ensures r.Some? ==> |r.value| == 8 && DecodeTwoPlayer(r.value).Some?
    ensures !data.Obj? ==> r.None?
  {
    if !data.Obj? then None
    else
      var pid := PlayerOf(data.fields);
      var c := ControlsOf(data.fields);
      if pid.Some? && 0 <= pid.value < 0x100 && c.Some? then
        TwoPlayerRoundTrip(Command(pid.value, c.value));
        Some(EncodeTwoPlayer(Command(pid.value, c.value)))
      else None
  }

  /** The handler of the given build. */
  function Pack(variant: Variant, data: Value): Option<Bytes> {
    match variant
    case Windows => PackSingle(data)
    case Linux => PackTwoPlayer(data)
  }

  lemma SingleRoundTrip(c: Controls)
    ensures DecodeSingle(EncodeSingle(c)) == Some(c)
  {
  }

  /** Every well-formed 7-byte packet is the encoding of what it decodes to. */
  lemma SingleDecodeEncode(p: Bytes)
    requires DecodeSingle(p).Some?
    ensures EncodeSingle(DecodeSingle(p).value) == p
  {
  }

  lemma TwoPlayerRoundTrip(cmd: Command)
    ensures DecodeTwoPlayer(EncodeTwoPlayer(cmd)) == Some(cmd)
  {
  }

  lemma TwoPlayerDecodeEncode(p: Bytes)
    requires DecodeTwoPlayer(p).Some?
    ensures EncodeTwoPlayer(DecodeTwoPlayer(p).value) == p
  {
  }

  /** The worked example: buttons 0b101, lx 128, ly 0, rx 255, ry 64. */
  lemma SingleExample()
    ensures EncodeSingle(Controls(5, 128, 0, 255, 64)) == [0x05, 0x00, 0x08, 0x80, 0x00, 0xFF, 0x40]
    ensures DecodeSingle([0x05, 0x00, 0x08, 0x80, 0x00, 0xFF, 0x40]) == Some(Controls(5, 128, 0, 255, 64))
  {
  }

  /** A payload packs exactly when it is an object whose five fields are
      all present and fit their widths; the packet then carries them. */
  lemma PackSingleCarriesFields(data: Value)
    ensures PackSingle(data).Some? <==> data.Obj? && ControlsOf(data.fields).Some?
    ensures PackSingle(data).Some? ==>
      DecodeSingle(PackSingle(data).value) == ControlsOf(data.fields)
  {
    if data.Obj? && ControlsOf(data.fields).Some? {
      SingleRoundTrip(ControlsOf(data.fields).value);
    }
  }

  /** A missing field, or an integer outside its wire width, drops the sample. */
  lemma ControlsOfRejects(fields: map<string, Value>, key: string, c: Code)
    requires (key, c) in {("buttons", H), ("lx", B), ("ly", B), ("rx", B), ("ry", B)}
    requires key !in fields || (fields[key].Int? && !(0 <= fields[key].i < Limit(c)))
    ensures ControlsOf(fields) == None
    ensures PackSingle(Obj(fields)) == None && PackTwoPlayer(Obj(fields)) == None
  {
  }

  /** Integer fields within their widths always pack. */
  lemma ControlsOfAccepts(fields: map<string, Value>, c: Controls)
    requires "buttons" in fields && fields["buttons"] == Int(c.buttons)
    requires "lx" in fields && fields["lx"] == Int(c.lx)
    requires "ly" in fields && fields["ly"] == Int(c.ly)
    requires "rx" in fields && fields["rx"] == Int(c.rx)
    requires "ry" in fields && fields["ry"] == Int(c.ry)
    ensures ControlsOf(fields) == Some(c)
    ensures PackSingle(Obj(fields)) == Some(EncodeSingle(c))
  {
  }

  /** main_linux.py: a payload without "player" is sent as player 1, and any
      player id that fits a byte is sent as is (nothing restricts it to 1 or 2);
      one that does not fit drops the sample. */
  lemma TwoPlayerPlayerRule(fields: map<string, Value>, c: Controls)
    requires ControlsOf(fields) == Some(c)
    ensures "player" !in fields ==> PackTwoPlayer(Obj(fields)) == Some(EncodeTwoPlayer(Command(1, c)))
    ensures "player" in fields && fields["player"].Int? && 0 <= fields["player"].i < 0x100 ==>
      PackTwoPlayer(Obj(fields)) == Some(EncodeTwoPlayer(Command(fields["player"].i, c)))
    ensures "player" in fields && fields["player"].Int? && !(0 <= fields["player"].i < 0x100) ==>
      PackTwoPlayer(Obj(fields)) == None
  {
  }

  /** Decoding a two-player packet yields the player id and the controls
      that were packed, byte for byte. */
  lemma PackTwoPlayerCarriesFields(data: Value)
    ensures PackTwoPlayer(data).Some? ==>
      data.Obj? && PlayerOf(data.fields).Some? && ControlsOf(data.fields).Some? &&
      DecodeTwoPlayer(PackTwoPlayer(data).value) ==
        Some(Command(PlayerOf(data.fields).value, ControlsOf(data.fields).value))
  {
  }
}
