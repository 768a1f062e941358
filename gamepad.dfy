/** What the browser page computes from one gamepad reading: the four
    normalised axis bytes, the 16-bit button word, and the searches the remap
    dialog makes for a newly pressed button or a moved axis.  Raw axis values
    are idealised as real numbers. */
module Gamepad {
  import opened Common

  /** The four canonical axes the page sends. */
  datatype Axis = LX | LY | RX | RY

  /** Canonical axis -> physical axis index of the gamepad. */
  type AxisMap = map<Axis, int>

  /** Canonical button bit (0..15) -> physical button index of the gamepad. */
  type ButtonMap = map<int, int>

  /** One reading of `navigator.getGamepads()[gamepadIndex]`. */
  datatype Pad = Pad(axes: seq<real>, buttons: seq<bool>)

  const Deadzone: real := 0.15

  /** How far an axis must move from its baseline to be picked by a remap. */
  const AxisThreshold: real := 0.5

  /** Number of bits of the button word. */
  const ButtonBits: nat := 16

  function DefaultAxisMap(): AxisMap {
    map[LX := 0, LY := 1, RX := 2, RY := 3]
  }

  /** The identity on the bits below n. */
  function IdentityBelow(n: nat): (m: ButtonMap)
    ensures forall b :: b in m <==> 0 <= b < n
    ensures forall b :: b in m ==> m[b] == b
  {
    if n == 0 then map[] else IdentityBelow(n - 1)[n - 1 := n - 1]
  }

  /** The default button map: bit b reads physical button b. */
  function DefaultButtonMap(): ButtonMap {
    IdentityBelow(ButtonBits)
  }

  function Abs(x: real): real {
    if x < 0.0 then -x else x
  }

  /** Math.max(0, Math.min(255, n)). */
  function ClampByte(n: int): int {
    if n < 0 then 0 else if n > 255 then 255 else n
  }

  /** The deadzone and rescaling step of normalizeAxis as main_linux.py
      writes it: one conditional. */
  function Rescale(v: real): real {
    if Abs(v) < Deadzone then 0.0
    else if v > 0.0 then (v - Deadzone) / (1.0 - Deadzone)
    else (v + Deadzone) / (1.0 - Deadzone)
  }

  /** normalizeAxis: the axis byte sent for a raw axis value. */
  function NormalizeAxis(v: real): (r: int)
    ensures 0 <= r <= 255
  {
    ClampByte(((Rescale(v) + 1.0) * 127.5).Floor)
  }

  /** normalizeAxis as main.py writes it: the value is first zeroed inside
      the deadzone, then rescaled by sign. */
  function NormalizeAxisStepwise(v: real): (r: int)
    ensures 0 <= r <= 255
  {
    var zeroed := if Abs(v) < Deadzone then 0.0 else v;
    var scaled :=
      if zeroed > 0.0 then (zeroed - Deadzone) / (1.0 - Deadzone)
      else if zeroed < 0.0 then (zeroed + Deadzone) / (1.0 - Deadzone)
      else zeroed;
    ClampByte(((scaled + 1.0) * 127.5).Floor)
  }

  /** The two builds normalise every value alike. */
  lemma NormalizeFormsAgree(v: real)
    ensures NormalizeAxisStepwise(v) == NormalizeAxis(v)
  {
  }

  /** Inside the deadzone every value is sent as 127: floor(127.5), not 128. */
  lemma NormalizeDeadzone(v: real)
    requires Abs(v) < Deadzone
    ensures NormalizeAxis(v) == 127
  {
  }

  /** Full deflection reaches both ends of the byte range. */
  lemma NormalizeFullScale()
    ensures NormalizeAxis(1.0) == 255
    ensures NormalizeAxis(-1.0) == 0
  {
  }

  lemma RescaleMonotone(u: real, v: real)
    requires u <= v
    ensures Rescale(u) <= Rescale(v)
  {
  }

  /** The axis byte never decreases as the stick moves up its range. */
  lemma NormalizeMonotone(u: real, v: real)
    requires u <= v
    ensures NormalizeAxis(u) <= NormalizeAxis(v)
  {
    RescaleMonotone(u, v);
    var x, y := (Rescale(u) + 1.0) * 127.5, (Rescale(v) + 1.0) * 127.5;
    assert x <= y;
    assert x.Floor <= y.Floor;
  }

  /** `gp.axes[axisMap[a]] || 0`: an unmapped or absent axis reads as 0. */
  function ReadAxis(pad: Pad, m: AxisMap, a: Axis): real {
    if a in m && 0 <= m[a] < |pad.axes| then pad.axes[m[a]] else 0.0
  }

  /** `gp.buttons[buttonMap[bit]]?.pressed`: false when unmapped or absent. */
  predicate MappedPressed(pad: Pad, m: ButtonMap, bit: int) {
    bit in m && 0 <= m[bit] < |pad.buttons| && pad.buttons[m[bit]]
  }

  function Pow2(n: nat): (r: nat)
    ensures r >= 1
  {
    if n == 0 then 1 else 2 * Pow2(n - 1)
  }

  /** Bit b of w, least significant first: `(w >> b) & 1 == 1`. */
  predicate BitSet(w: nat, b: nat) {
    if b == 0 then w % 2 == 1 else BitSet(w / 2, b - 1)
  }

  /** The button word after the first n turns of updateLoop's bit loop. */
  function MaskBelow(pad: Pad, m: ButtonMap, n: nat): nat {
    if n == 0 then 0
    else MaskBelow(pad, m, n - 1) + (if MappedPressed(pad, m, n - 1) then Pow2(n - 1) else 0)
  }

  /** The button word updateLoop sends. */
  function ButtonsWord(pad: Pad, m: ButtonMap): nat {
    MaskBelow(pad, m, ButtonBits)
  }

  /** 2^16, the first value that no longer fits the button word. */
  lemma Pow2Sixteen()
    ensures Pow2(16) == 0x1_0000
  {
    assert Pow2(2) == 4;
    assert Pow2(4) == 16;
    assert Pow2(6) == 64;
    assert Pow2(8) == 256;
    assert Pow2(10) == 1024;
    assert Pow2(12) == 4096;
    assert Pow2(14) == 16384;
  }

  lemma {:induction false} BitSetBelowPow2(w: nat, b: nat)
    requires w < Pow2(b)
    ensures !BitSet(w, b)
  {
    if b > 0 {
      BitSetBelowPow2(w / 2, b - 1);
    }
  }

  /** Setting bit k of a word below 2^k (`w | (1 << k)`) adds 2^k. */
  lemma {:induction false} BitSetAddPow2(w: nat, k: nat, b: nat)
    requires w < Pow2(k)
    ensures BitSet(w + Pow2(k), b) <==> (b == k || BitSet(w, b))
  {
    if k == 0 {
      if b > 0 {
        assert (w + Pow2(k)) / 2 == 0;
        BitSetBelowPow2(0, b - 1);
      }
    } else if b > 0 {
      assert (w + Pow2(k)) / 2 == w / 2 + Pow2(k - 1);
      BitSetAddPow2(w / 2, k - 1, b - 1);
    }
  }

  lemma {:induction false} MaskBelowBits(pad: Pad, m: ButtonMap, n: nat, b: nat)
    ensures MaskBelow(pad, m, n) < Pow2(n)
    ensures BitSet(MaskBelow(pad, m, n), b) <==> b < n && MappedPressed(pad, m, b)
  {
    if n == 0 {
      BitSetBelowPow2(0, b);
    } else {
      MaskBelowBits(pad, m, n - 1, b);
      if MappedPressed(pad, m, n - 1) {
        BitSetAddPow2(MaskBelow(pad, m, n - 1), n - 1, b);
      }
    }
  }

  /** Bit b of the button word is set exactly when canonical button b is
      mapped to a physical button that exists and is pressed; the word fits
      16 bits. */
  lemma ButtonsWordBits(pad: Pad, m: ButtonMap, b: nat)
    ensures ButtonsWord(pad, m) < 0x1_0000
    ensures BitSet(ButtonsWord(pad, m), b) <==> b < ButtonBits && MappedPressed(pad, m, b)
  {
    MaskBelowBits(pad, m, ButtonBits, b);
    Pow2Sixteen();
  }

  /** The bit loop of updateLoop (`btns |= (1 << i)` for each pressed bit). */
  method ComputeButtonsWord(pad: Pad, m: ButtonMap) returns (w: nat)
    ensures w == ButtonsWord(pad, m)
    ensures w < 0x1_0000
    ensures forall b: nat :: BitSet(w, b) <==> b < ButtonBits && MappedPressed(pad, m, b)
  {
    w := 0;
    var bit := 0;
    while bit < ButtonBits
      invariant 0 <= bit <= ButtonBits
      invariant w == MaskBelow(pad, m, bit)
    {
      var physical := if bit in m then m[bit] else -1;
      if 0 <= physical < |pad.buttons| && pad.buttons[physical] {
        // bit `bit` of w is still clear, so the OR is an addition
        w := w + Pow2(bit);
      }
      bit := bit + 1;
    }
    forall b: nat
      ensures BitSet(w, b) <==> b < ButtonBits && MappedPressed(pad, m, b)
    {
      ButtonsWordBits(pad, m, b);
    }
    ButtonsWordBits(pad, m, 0);
  }

  /** The lowest index below n that satisfies p, if any: the index a
      `forEach` scan that stops at its first match reports. */
  function FirstMatch(n: nat, p: nat -> bool): (r: Option<nat>)
    ensures r.Some? ==> r.value < n && p(r.value) && forall j: nat :: j < r.value ==> !p(j)
    ensures r.None? ==> forall j: nat :: j < n ==> !p(j)
  {
    if n == 0 then None
    else
      match FirstMatch(n - 1, p)
      case Some(i) => Some(i)
      case None => if p(n - 1) then Some(n - 1) else None
  }

  /** Button i is down now and was not down in the baseline; a baseline
      entry that is absent counts as released. */
  predicate NewlyPressed(now: seq<bool>, base: seq<bool>, i: nat) {
    i < |now| && now[i] && !(i < |base| && base[i])
  }

  /** `baselineState.axes[i] || 0`. */
  function BaselineAxis(base: seq<real>, i: nat): real {
    if i < |base| then base[i] else 0.0
  }

  /** Axis i has moved strictly more than the threshold from its baseline. */
  predicate AxisMoved(now: seq<real>, base: seq<real>, i: nat) {
    i < |now| && Abs(now[i] - BaselineAxis(base, i)) > AxisThreshold
  }

  /** The button a button remap binds: the lowest newly pressed index. */
  function FirstNewPress(now: seq<bool>, base: seq<bool>): (r: Option<nat>)
    ensures r.Some? ==> NewlyPressed(now, base, r.value)
    ensures r.Some? ==> forall j: nat :: j < r.value ==> !NewlyPressed(now, base, j)
    ensures r.None? ==> forall j: nat :: !NewlyPressed(now, base, j)
  {
    var p := (i: nat) => NewlyPressed(now, base, i);
    assert forall j: nat :: p(j) == NewlyPressed(now, base, j);
    FirstMatch(|now|, p)
  }

  /** The axis an axis remap binds: the lowest index that moved. */
  function FirstMovedAxis(now: seq<real>, base: seq<real>): (r: Option<nat>)
    ensures r.Some? ==> AxisMoved(now, base, r.value)
    ensures r.Some? ==> forall j: nat :: j < r.value ==> !AxisMoved(now, base, j)
    ensures r.None? ==> forall j: nat :: !AxisMoved(now, base, j)
  {
    var p := (i: nat) => AxisMoved(now, base, i);
    assert forall j: nat :: p(j) == AxisMoved(now, base, j);
    FirstMatch(|now|, p)
  }

  /** An axis at rest where it was at the snapshot (a pedal at -1.0) never
      binds, whatever its absolute value. */
  lemma RestingAxisNeverMoves(now: seq<real>, base: seq<real>)
    requires |now| <= |base|
    requires forall i | 0 <= i < |now| :: now[i] == base[i]
    ensures FirstMovedAxis(now, base) == None
  {
  }

  /** Axis 3 moved by 0.6 from a centred baseline binds axis 3; a move of
      0.3, or of exactly the threshold 0.5, binds nothing. */
  lemma AxisThresholdExamples()
    ensures FirstMovedAxis([0.0, 0.0, 0.0, 0.6], [0.0, 0.0, 0.0, 0.0]) == Some(3)
    ensures FirstMovedAxis([0.0, 0.0, 0.0, 0.3], [0.0, 0.0, 0.0, 0.0]) == None
    ensures FirstMovedAxis([0.0, 0.0, 0.0, -0.5], [0.0, 0.0, 0.0, 0.0]) == None
  {
    var moved := [0.0, 0.0, 0.0, 0.6];
    var base := [0.0, 0.0, 0.0, 0.0];
    assert AxisMoved(moved, base, 3);
    assert forall j: nat :: j < 3 ==> !AxisMoved(moved, base, j);
  }

  /** Button 5 pressed after a snapshot where it was released binds 5; a
      button already held at the snapshot is never bound. */
  lemma NewPressExamples()
    ensures FirstNewPress([false, false, false, false, false, true], [false, false, false, false, false, false]) == Some(5)
    ensures FirstNewPress([false, false, false, false, false, true], [false, false, false, false, false, true]) == None
  {
    var now := [false, false, false, false, false, true];
    var base := [false, false, false, false, false, false];
    assert NewlyPressed(now, base, 5);
    assert forall j: nat :: j < 5 ==> !NewlyPressed(now, base, j);
  }
}
