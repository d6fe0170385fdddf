/** Byte-level decoding of the CC2650 SensorTag characteristics, shared by
    every script: the MPU-9250 movement frame, the control word the movement
    service is enabled with, the barometer frame and the battery level. */
module Decode {
  import opened Wrappers

  type byte = b: int | 0 <= b < 256

  // ---------------------------------------------------------------------
  // 16-bit little-endian integers (struct formats "<h" and "<H")
  // ---------------------------------------------------------------------

  /** struct "<h": a two's-complement 16-bit value from its low and high byte. */
  function I16(lo: byte, hi: byte): (v: int)
    ensures -0x8000 <= v < 0x8000
  {
    var u := lo + 256 * hi;
    if u >= 0x8000 then u - 0x1_0000 else u
  }

  /** The two bytes struct "<h" packs a signed 16-bit value into. */
  function EncodeI16(v: int): (bs: seq<byte>)
    requires -0x8000 <= v < 0x8000
    ensures |bs| == 2
  {
    var u := if v < 0 then v + 0x1_0000 else v;
    [u % 256, u / 256]
  }

  lemma EncodeDecodeI16(v: int)
    requires -0x8000 <= v < 0x8000
    ensures I16(EncodeI16(v)[0], EncodeI16(v)[1]) == v
  {
  }

  lemma DecodeEncodeI16(lo: byte, hi: byte)
    ensures EncodeI16(I16(lo, hi)) == [lo, hi]
  {
  }

  /** struct.pack("<H", w): the control word as two little-endian bytes. */
  function PackU16(w: bv16): (bs: seq<byte>)
    ensures |bs| == 2
  {
    var n := w as int;
    [n % 256, n / 256]
  }

  /** struct "<H" read back: the unsigned value of two little-endian bytes. */
  function UnpackU16(lo: byte, hi: byte): int
  {
    lo + 256 * hi
  }

  /** The packed control word reads back as the word that was packed, and
      its low byte comes first. */
  lemma PackU16RoundTrip(w: bv16)
    ensures UnpackU16(PackU16(w)[0], PackU16(w)[1]) == w as int
  {
    var n := w as int;
    assert PackU16(w) == [n % 256, n / 256];
    DivMod256(n);
  }

  lemma DivMod256(n: int)
    ensures n % 256 + 256 * (n / 256) == n
  {
  }

  // ---------------------------------------------------------------------
  // The movement frame: struct.unpack("<hhhhhhhhh", data)
  // ---------------------------------------------------------------------

  const MOVEMENT_FRAME_LEN := 18
  const MOVEMENT_FIELDS := 9

  predicate IsI16(v: int) { -0x8000 <= v < 0x8000 }

  /** Nine signed 16-bit fields; any length other than 18 bytes is a struct.error. */
  function UnpackMovement(data: seq<byte>): (r: Option<seq<int>>)
    ensures r.Some? <==> |data| == MOVEMENT_FRAME_LEN
    ensures r.Some? ==> |r.value| == MOVEMENT_FIELDS && forall i :: 0 <= i < MOVEMENT_FIELDS ==> IsI16(r.value[i])
  {
    if |data| != MOVEMENT_FRAME_LEN then None
    else Some(seq(MOVEMENT_FIELDS, i requires 0 <= i < MOVEMENT_FIELDS => I16(data[2 * i], data[2 * i + 1])))
  }

  /** The frame the sensor sends for nine field values (the inverse of UnpackMovement). */
  function PackMovement(v: seq<int>): (data: seq<byte>)
    requires |v| == MOVEMENT_FIELDS && forall i :: 0 <= i < |v| ==> IsI16(v[i])
    ensures |data| == MOVEMENT_FRAME_LEN
  {
    seq(MOVEMENT_FRAME_LEN, j requires 0 <= j < MOVEMENT_FRAME_LEN && IsI16(v[j / 2]) => EncodeI16(v[j / 2])[j % 2])
  }

  lemma {:induction false} UnpackPackMovement(v: seq<int>)
    requires |v| == MOVEMENT_FIELDS && forall i :: 0 <= i < |v| ==> IsI16(v[i])
    ensures UnpackMovement(PackMovement(v)) == Some(v)
  {
    var d := PackMovement(v);
    var u := UnpackMovement(d).value;
    forall i | 0 <= i < MOVEMENT_FIELDS
      ensures u[i] == v[i]
    {
      assert (2 * i) / 2 == i && (2 * i) % 2 == 0;
      assert (2 * i + 1) / 2 == i && (2 * i + 1) % 2 == 1;
      assert d[2 * i] == EncodeI16(v[i])[0];
      assert d[2 * i + 1] == EncodeI16(v[i])[1];
      EncodeDecodeI16(v[i]);
      assert u[i] == I16(d[2 * i], d[2 * i + 1]);
    }
    assert u == v;
  }

  lemma {:induction false} PackUnpackMovement(data: seq<byte>)
    requires |data| == MOVEMENT_FRAME_LEN
    ensures PackMovement(UnpackMovement(data).value) == data
  {
    var v := UnpackMovement(data).value;
    forall j | 0 <= j < MOVEMENT_FRAME_LEN
      ensures PackMovement(v)[j] == data[j]
    {
      var i := j / 2;
      assert j == 2 * i + j % 2;
      DecodeEncodeI16(data[2 * i], data[2 * i + 1]);
    }
  }

  // ---------------------------------------------------------------------
  // Movement sub-services and the control word
  // ---------------------------------------------------------------------

  const GYRO_XYZ: bv16 := 7
  const ACCEL_XYZ: bv16 := 7 << 3
  const MAG_XYZ: bv16 := 1 << 6
  const ACCEL_RANGE_2G: bv16 := 0 << 8
  const ACCEL_RANGE_4G: bv16 := 1 << 8
  const ACCEL_RANGE_8G: bv16 := 2 << 8
  const ACCEL_RANGE_16G: bv16 := 3 << 8

  /** The three MovementSensorMPU9250SubService subclasses. */
  datatype SubService = Gyroscope | Accelerometer | Magnetometer

  /** enable_bits(): the bits each sub-service sets in the control word. */
  function EnableBits(s: SubService): bv16
  {
    match s
    case Gyroscope => GYRO_XYZ
    case Accelerometer => ACCEL_XYZ | ACCEL_RANGE_4G
    case Magnetometer => MAG_XYZ
  }

  /** Where each cb_sensor slices the unpacked frame: data[0:3], data[3:6], data[6:9]. */
  function FieldOffset(s: SubService): nat
  {
    match s
    case Gyroscope => 0
    case Accelerometer => 3
    case Magnetometer => 6
  }

  /** Each cb_sensor's scale factor (deg/s, g, uT per count), as exact rationals. */
  function Scale(s: SubService): real
  {
    match s
    case Gyroscope => 500.0 / 65536.0
    case Accelerometer => 8.0 / 32768.0
    case Magnetometer => 4912.0 / 32760.0
  }

  /** cb_sensor: the sub-service's three fields, scaled. */
  function CbSensor(s: SubService, fields: seq<int>): (r: seq<real>)
    requires |fields| == MOVEMENT_FIELDS
    ensures |r| == 3
    ensures forall k :: 0 <= k < 3 ==> r[k] == fields[FieldOffset(s) + k] as real * Scale(s)
  {
    var o := FieldOffset(s);
    [fields[o] as real * Scale(s), fields[o + 1] as real * Scale(s), fields[o + 2] as real * Scale(s)]
  }

  /** The control word: the OR of the enable bits of every registered sub-service. */
  function OrAll(subs: seq<SubService>): bv16
  {
    if subs == [] then 0 else OrAll(subs[..|subs| - 1]) | EnableBits(subs[|subs| - 1])
  }

  /** Every registered sub-service's bits are set in the control word. */
  lemma {:induction false} OrAllCovers(subs: seq<SubService>, i: nat)
    requires i < |subs|
    ensures OrAll(subs) & EnableBits(subs[i]) == EnableBits(subs[i])
  {
    if i < |subs| - 1 {
      OrAllCovers(subs[..|subs| - 1], i);
    }
  }

  /** Registering a sub-service a second time leaves the control word as it was. */
  lemma {:induction false} RegisterTwiceIdempotent(subs: seq<SubService>, s: SubService)
    requires s in subs
    ensures OrAll(subs + [s]) == OrAll(subs)
  {
    var i :| 0 <= i < |subs| && subs[i] == s;
    OrAllCovers(subs, i);
    assert (subs + [s])[..|subs|] == subs;
  }

  /** MovementSensorMPU9250: the control word and the registered sub-service callbacks. */
  class MovementSensor {
    var ctrlBits: bv16
    var subCallbacks: seq<SubService>

    ghost predicate Valid()
      reads this
    {
      ctrlBits == OrAll(subCallbacks)
    }

    constructor ()
      ensures Valid() && ctrlBits == 0 && subCallbacks == []
    {
      ctrlBits := 0;
      subCallbacks := [];
    }

    /** register: OR the sub-service's bits in and remember its callback. */
    method Register(s: SubService)
      requires Valid()
      modifies this
      ensures Valid()
      ensures ctrlBits == old(ctrlBits) | EnableBits(s)
      ensures subCallbacks == old(subCallbacks) + [s]
    {
      ctrlBits := ctrlBits | EnableBits(s);
      subCallbacks := subCallbacks + [s];
      assert subCallbacks[..|subCallbacks| - 1] == old(subCallbacks);
    }

    /** The payload enable writes to the control characteristic. */
    function ControlPayload(): (bs: seq<byte>)
      reads this
      ensures |bs| == 2 && UnpackU16(bs[0], bs[1]) == ctrlBits as int
    {
      PackU16RoundTrip(ctrlBits);
      PackU16(ctrlBits)
    }
  }

  /** The enabling sequence every reading script runs: register accelerometer,
      gyroscope and magnetometer in that order, then write the control word. */
  method EnableMovement() returns (payload: seq<byte>, subs: seq<SubService>)
    ensures subs == [Accelerometer, Gyroscope, Magnetometer]
    ensures payload == [0x7F, 0x01]
  {
    var m := new MovementSensor();
    m.Register(Accelerometer);
    m.Register(Gyroscope);
    m.Register(Magnetometer);
    assert m.ctrlBits == 383;
    payload := m.ControlPayload();
    subs := m.subCallbacks;
  }

  /** MovementSensorMPU9250.callback: unpack the frame, run the first three
      registered callbacks and return gyro_vals + accel_vals + mag_vals, where
      those names denote the callbacks registered 2nd, 1st and 3rd. */
  function MovementCallback(subs: seq<SubService>, data: seq<byte>): (r: Option<seq<real>>)
    ensures r.Some? <==> |data| == MOVEMENT_FRAME_LEN && |subs| >= 3
    ensures r.Some? ==> |r.value| == 9
  {
    match UnpackMovement(data)
    case None => None
    case Some(fields) =>
      if |subs| < 3 then None
      else Some(CbSensor(subs[1], fields) + CbSensor(subs[0], fields) + CbSensor(subs[2], fields))
  }

  /** The sub-service a position of the returned reading belongs to. */
  function GroupOf(k: nat): SubService
  {
    if k < 3 then Gyroscope else if k < 6 then Accelerometer else Magnetometer
  }

  /** With the registration order the scripts use, the reading is the nine
      frame fields in frame order: gyro 0-2, accel 3-5, mag 6-8, each scaled. */
  lemma CallbackInRegistrationOrder(data: seq<byte>)
    requires |data| == MOVEMENT_FRAME_LEN
    ensures var r := MovementCallback([Accelerometer, Gyroscope, Magnetometer], data);
      r.Some? && forall k :: 0 <= k < 9 ==>
        r.value[k] == UnpackMovement(data).value[k] as real * Scale(GroupOf(k))
  {
  }

  // ---------------------------------------------------------------------
  // Barometer and battery
  // ---------------------------------------------------------------------

  const BARO_FRAME_LEN := 6

  /** BarometerSensor.callback before its /100: the 24-bit pressure count
      from bytes 3-5 (bytes 0-2, the temperature, are ignored). */
  function BaroRaw(data: seq<byte>): (r: Option<int>)
    ensures r.Some? <==> |data| == BARO_FRAME_LEN
    ensures r.Some? ==> 0 <= r.value < 0x100_0000
    ensures r.Some? ==> r.value % 256 == data[3] && (r.value / 256) % 256 == data[4] && r.value / 0x1_0000 == data[5]
  {
    if |data| != BARO_FRAME_LEN then None
    else Some((data[5] as int) * 65536 + (data[4] as int) * 256 + data[3] as int)
  }

  /** The pressure in millibars that the callback returns. */
  function BaroPressure(data: seq<byte>): (r: Option<real>)
    ensures r.Some? <==> |data| == BARO_FRAME_LEN
    ensures r.Some? ==> 0.0 <= r.value < 0x100_0000 as real / 100.0
  {
    match BaroRaw(data)
    case None => None
    case Some(p) => Some(p as real / 100.0)
  }

  /** Two frames with the same pressure bytes give the same pressure, and
      different pressure bytes give different pressures. */
  lemma BaroDependsOnPressureBytesOnly(a: seq<byte>, b: seq<byte>)
    requires |a| == BARO_FRAME_LEN && |b| == BARO_FRAME_LEN
    ensures BaroRaw(a) == BaroRaw(b) <==> a[3..6] == b[3..6]
  {
    if BaroRaw(a) == BaroRaw(b) {
      assert a[3..6] == [a[3], a[4], a[5]];
      assert b[3..6] == [b[3], b[4], b[5]];
    } else {
      assert a[3] != b[3] || a[4] != b[4] || a[5] != b[5];
      assert a[3..6][0] == a[3] && a[3..6][1] == a[4] && a[3..6][2] == a[5];
      assert b[3..6][0] == b[3] && b[3..6][1] == b[4] && b[3..6][2] == b[5];
    }
  }

  /** BatteryService.read: int(val[0]) of the Battery Level characteristic (0x2A19). */
  function BatteryLevel(val: seq<byte>): (r: Option<int>)
    ensures r.Some? <==> |val| > 0
    ensures r.Some? ==> r.value == val[0] as int && 0 <= r.value <= 255
  {
    if |val| == 0 then None else Some(val[0])
  }
}
