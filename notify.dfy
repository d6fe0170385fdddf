/** The notification-driven recorder: the movement and barometer
    characteristics push frames, each sub-service callback appends raw values
    to its own three channel files with its own row counter, the barometer
    callback also writes one label line per completed row, and the first two
    accelerometer notifications only arm the recorder. The LED loop blinks red
    and green while recording. */
module Notify {
  import opened Wrappers
  import opened Decode
  import opened Csv

  const TIMESTEPS := 2
  /** The gesture being recorded ('2' is Shake). */
  const LABEL := "2"
  /** The order in which the recorder registers its sub-services. */
  const REGISTERED := [Accelerometer, Gyroscope, Magnetometer]

  predicate Frames(frames: seq<seq<int>>)
  {
    forall i :: 0 <= i < |frames| ==> |frames[i]| == MOVEMENT_FIELDS
  }

  /** Field k of every frame, in order. */
  function Column(frames: seq<seq<int>>, k: nat): (r: seq<int>)
    requires k < MOVEMENT_FIELDS && Frames(frames)
    ensures |r| == |frames| && forall i :: 0 <= i < |frames| ==> r[i] == frames[i][k]
  {
    seq(|frames|, i requires 0 <= i < |frames| => frames[i][k])
  }

  /** How many times s occurs in subs. Its contract is kept to a bound so that
      the proof context of `Recorder.Callback` stays small; membership is
      stated separately by `CountPositiveIff`. */
  function Count(subs: seq<SubService>, s: SubService): (n: nat)
    ensures n <= |subs|
  {
    if subs == [] then 0
    else Count(subs[..|subs| - 1], s) + (if subs[|subs| - 1] == s then 1 else 0)
  }

  /** A sub-service is counted at least once exactly when it is registered. */
  lemma {:induction false} CountPositiveIff(subs: seq<SubService>, s: SubService)
    ensures Count(subs, s) > 0 <==> s in subs
    decreases |subs|
  {
    if subs != [] {
      var init := subs[..|subs| - 1];
      CountPositiveIff(init, s);
      assert subs == init + [subs[|subs| - 1]];
    }
  }

  /** Writing one frame's field k with the counter keeps the column file
      equal to Rows of the column written so far. */
  lemma WriteColumn(frames: seq<seq<int>>, frame: seq<int>, k: nat, count: nat)
    requires Frames(frames) && |frame| == MOVEMENT_FIELDS && k < MOVEMENT_FIELDS
    requires count == |frames| % TIMESTEPS
    ensures Frames(frames + [frame])
    ensures Rows(Column(frames, k), TIMESTEPS) + [Cell(frame[k], count == TIMESTEPS - 1)]
            == Rows(Column(frames + [frame], k), TIMESTEPS)
    ensures (if count == TIMESTEPS - 1 then 0 else count + 1) == |frames + [frame]| % TIMESTEPS
  {
    WriteCellKeepsRows(Column(frames, k), TIMESTEPS, count, frame[k]);
    assert Column(frames + [frame], k) == Column(frames, k) + [frame[k]];
  }

  class Recorder {
    /** The global READY, -1 when the script starts. */
    var ready: int
    var accelCount: nat
    var gyroCount: nat
    var magCount: nat
    var baroCount: nat
    var accX: seq<Cell<int>>
    var accY: seq<Cell<int>>
    var accZ: seq<Cell<int>>
    var gyroX: seq<Cell<int>>
    var gyroY: seq<Cell<int>>
    var gyroZ: seq<Cell<int>>
    var magX: seq<Cell<int>>
    var magY: seq<Cell<int>>
    var magZ: seq<Cell<int>>
    var baro: seq<Cell<real>>
    /** The label file. */
    var labels: seq<string>
    /** The frames each sub-service callback has written, in order. */
    ghost var AccelFrames: seq<seq<int>>
    ghost var GyroFrames: seq<seq<int>>
    ghost var MagFrames: seq<seq<int>>
    /** The pressures the barometer callback has written, in order. */
    ghost var Pressures: seq<real>

    /** Each channel file holds its field of every frame its callback has
        written, in rows of TIMESTEPS, with the callback's counter in step. */
    ghost predicate AccelFiles()
      reads this
    {
      && Frames(AccelFrames) && accelCount == |AccelFrames| % TIMESTEPS
      && accX == Rows(Column(AccelFrames, 3), TIMESTEPS)
      && accY == Rows(Column(AccelFrames, 4), TIMESTEPS)
      && accZ == Rows(Column(AccelFrames, 5), TIMESTEPS)
    }

    ghost predicate GyroFiles()
      reads this
    {
      && Frames(GyroFrames) && gyroCount == |GyroFrames| % TIMESTEPS
      && gyroX == Rows(Column(GyroFrames, 0), TIMESTEPS)
      && gyroY == Rows(Column(GyroFrames, 1), TIMESTEPS)
      && gyroZ == Rows(Column(GyroFrames, 2), TIMESTEPS)
    }

    ghost predicate MagFiles()
      reads this
    {
      && Frames(MagFrames) && magCount == |MagFrames| % TIMESTEPS
      && magX == Rows(Column(MagFrames, 6), TIMESTEPS)
      && magY == Rows(Column(MagFrames, 7), TIMESTEPS)
      && magZ == Rows(Column(MagFrames, 8), TIMESTEPS)
    }

    /** The pressure file and the label file: one label line per
        completed pressure row. */
    ghost predicate BaroFiles()
      reads this
    {
      && baroCount == |Pressures| % TIMESTEPS
      && baro == Rows(Pressures, TIMESTEPS)
      && labels == seq(|Pressures| / TIMESTEPS, _ => LABEL)
    }

    /** The files, plus the arming protocol: motion is written only from
        READY 2 on, pressure from READY 1 on, and the accelerometer has
        written one frame per notification since READY reached 2. */
    ghost predicate Valid()
      reads this
    {
      && AccelFiles() && GyroFiles() && MagFiles() && BaroFiles()
      && ready >= -1
      && |AccelFrames| == (if ready >= 2 then ready - 1 else 0)
      && (ready < 2 ==> GyroFrames == [] && MagFrames == [])
      && (ready < 1 ==> Pressures == [])
    }

    constructor ()
      ensures Valid() && ready == -1
      ensures AccelFrames == [] && GyroFrames == [] && MagFrames == [] && Pressures == []
    {
      ready := -1;
      accelCount, gyroCount, magCount, baroCount := 0, 0, 0, 0;
      accX, accY, accZ := [], [], [];
      gyroX, gyroY, gyroZ := [], [], [];
      magX, magY, magZ := [], [], [];
      baro, labels := [], [];
      AccelFrames, GyroFrames, MagFrames, Pressures := [], [], [], [];
    }

    /** The write half of the accelerometer callback: the raw x, y and z
        fields, "v\n" and a counter reset at the end of a row. */
    method WriteAccel(frame: seq<int>)
      requires AccelFiles() && GyroFiles() && MagFiles() && BaroFiles() && |frame| == MOVEMENT_FIELDS
      modifies this
      ensures AccelFiles() && GyroFiles() && MagFiles() && BaroFiles()
      ensures AccelFrames == old(AccelFrames) + [frame]
      ensures ready == old(ready)
      ensures GyroFrames == old(GyroFrames) && MagFrames == old(MagFrames) && Pressures == old(Pressures)
    {
      WriteColumn(AccelFrames, frame, 3, accelCount);
      WriteColumn(AccelFrames, frame, 4, accelCount);
      WriteColumn(AccelFrames, frame, 5, accelCount);
      if accelCount == TIMESTEPS - 1 {
        accX, accY, accZ := accX + [Cell(frame[3], true)], accY + [Cell(frame[4], true)], accZ + [Cell(frame[5], true)];
        accelCount := 0;
      } else {
        accX, accY, accZ := accX + [Cell(frame[3], false)], accY + [Cell(frame[4], false)], accZ + [Cell(frame[5], false)];
        accelCount := accelCount + 1;
      }
      AccelFrames := AccelFrames + [frame];
    }

    /** The accelerometer callback: counts READY up and, from READY 2 on,
        writes the raw x, y and z fields. */
    method AccelCb(frame: seq<int>)
      requires Valid() && |frame| == MOVEMENT_FIELDS
      modifies this
      ensures Valid()
      ensures ready == old(ready) + 1
      ensures AccelFrames == old(AccelFrames) + (if ready >= 2 then [frame] else [])
      ensures GyroFrames == old(GyroFrames) && MagFrames == old(MagFrames) && Pressures == old(Pressures)
    {
      ready := ready + 1;
      if ready >= 2 {
        WriteAccel(frame);
      }
    }

    /** The gyroscope callback: from READY 2 on, writes the raw x, y and z fields. */
    method GyroCb(frame: seq<int>)
      requires Valid() && |frame| == MOVEMENT_FIELDS
      modifies this
      ensures Valid()
      ensures ready == old(ready)
      ensures GyroFrames == old(GyroFrames) + (if ready >= 2 then [frame] else [])
      ensures AccelFrames == old(AccelFrames) && MagFrames == old(MagFrames) && Pressures == old(Pressures)
    {
      if ready >= 2 {
        WriteColumn(GyroFrames, frame, 0, gyroCount);
        WriteColumn(GyroFrames, frame, 1, gyroCount);
        WriteColumn(GyroFrames, frame, 2, gyroCount);
        if gyroCount == TIMESTEPS - 1 {
          gyroX, gyroY, gyroZ := gyroX + [Cell(frame[0], true)], gyroY + [Cell(frame[1], true)], gyroZ + [Cell(frame[2], true)];
          gyroCount := 0;
        } else {
          gyroX, gyroY, gyroZ := gyroX + [Cell(frame[0], false)], gyroY + [Cell(frame[1], false)], gyroZ + [Cell(frame[2], false)];
          gyroCount := gyroCount + 1;
        }
        GyroFrames := GyroFrames + [frame];
      }
    }

    /** The magnetometer callback: from READY 2 on, writes the raw x, y and z fields. */
    method MagCb(frame: seq<int>)
      requires Valid() && |frame| == MOVEMENT_FIELDS
      modifies this
      ensures Valid()
      ensures ready == old(ready)
      ensures MagFrames == old(MagFrames) + (if ready >= 2 then [frame] else [])
      ensures AccelFrames == old(AccelFrames) && GyroFrames == old(GyroFrames) && Pressures == old(Pressures)
    {
      if ready >= 2 {
        WriteColumn(MagFrames, frame, 6, magCount);
        WriteColumn(MagFrames, frame, 7, magCount);
        WriteColumn(MagFrames, frame, 8, magCount);
        if magCount == TIMESTEPS - 1 {
          magX, magY, magZ := magX + [Cell(frame[6], true)], magY + [Cell(frame[7], true)], magZ + [Cell(frame[8], true)];
          magCount := 0;
        } else {
          magX, magY, magZ := magX + [Cell(frame[6], false)], magY + [Cell(frame[7], false)], magZ + [Cell(frame[8], false)];
          magCount := magCount + 1;
        }
        MagFrames := MagFrames + [frame];
      }
    }

    /** The movement notification handler: unpack nine signed fields (a frame
        of the wrong size raises and writes nothing), then call every
        registered sub-service callback in registration order. */
    method Callback(subs: seq<SubService>, data: seq<byte>)
      requires Valid()
      modifies this
      ensures Valid()
      ensures Pressures == old(Pressures)
      ensures UnpackMovement(data).None? ==>
                ready == old(ready) && AccelFrames == old(AccelFrames)
                && GyroFrames == old(GyroFrames) && MagFrames == old(MagFrames)
      ensures UnpackMovement(data).Some? ==> ready == old(ready) + Count(subs, Accelerometer)
      ensures UnpackMovement(data).Some? && subs == REGISTERED ==>
                var w := if old(ready) >= 1 then [UnpackMovement(data).value] else [];
                && AccelFrames == old(AccelFrames) + w
                && GyroFrames == old(GyroFrames) + w
                && MagFrames == old(MagFrames) + w
    {
      var unpacked := UnpackMovement(data);
      if unpacked.None? {
        return;
      }
      var frame := unpacked.value;
      ghost var w := if ready >= 1 then [frame] else [];
      for i := 0 to |subs|
        invariant Valid() && Pressures == old(Pressures)
        invariant ready == old(ready) + Count(subs[..i], Accelerometer)
        invariant subs == REGISTERED ==>
                    && AccelFrames == old(AccelFrames) + (if i >= 1 then w else [])
                    && GyroFrames == old(GyroFrames) + (if i >= 2 then w else [])
                    && MagFrames == old(MagFrames) + (if i >= 3 then w else [])
      {
        assert subs[..i + 1][..i] == subs[..i];
        match subs[i]
        case Accelerometer => AccelCb(frame);
        case Gyroscope => GyroCb(frame);
        case Magnetometer => MagCb(frame);
      }
      assert subs[..|subs|] == subs;
    }

    /** The barometer notification handler: from READY 1 on, unpack six
        bytes (a frame of the wrong size raises and writes nothing) and
        write the pressure, plus a label line when the row completes. */
    method BaroCb(data: seq<byte>)
      requires Valid()
      modifies this
      ensures Valid()
      ensures ready == old(ready)
      ensures AccelFrames == old(AccelFrames) && GyroFrames == old(GyroFrames) && MagFrames == old(MagFrames)
      ensures Pressures == old(Pressures) +
                (if old(ready) >= 1 && BaroPressure(data).Some? then [BaroPressure(data).value] else [])
    {
      if ready >= 1 {
        var press := BaroPressure(data);
        if press.Some? {
          WriteCellKeepsRows(Pressures, TIMESTEPS, baroCount, press.value);
          ModStep(|Pressures|, TIMESTEPS);
          if baroCount == TIMESTEPS - 1 {
            baro := baro + [Cell(press.value, true)];
            labels := labels + [LABEL];
            baroCount := 0;
          } else {
            baro := baro + [Cell(press.value, false)];
            baroCount := baroCount + 1;
          }
          Pressures := Pressures + [press.value];
        }
      }
    }
  }

  /** The recorder arms on accelerometer notifications only: after two
      movement notifications and one barometer notification the pressure
      file already holds a value while no motion file does, so the pressure
      and label rows start out of step with the motion rows. */
  method BaroStartsBeforeMotion() returns (pressureValues: nat, accelValues: nat)
    ensures pressureValues == 1 && accelValues == 0
  {
    var r := new Recorder();
    var frame: seq<byte> := seq(MOVEMENT_FRAME_LEN, _ => 0);
    r.Callback(REGISTERED, frame);
    r.Callback(REGISTERED, frame);
    r.BaroCb([0, 0, 0, 0, 0, 0]);
    pressureValues := |r.baro|;
    accelValues := |r.accX|;
  }

  // The LED loop: once a second, red at counter 0, green at counter 5,
  // the counter wrapping from 10 back to 0.

  const RED := 0x01
  const GREEN := 0x02

  /** The code the LED loop writes on its i-th pass, if any. */
  function ExpectedLed(i: nat): (code: Option<int>)
    ensures code.Some? <==> i % 10 == 0 || i % 10 == 5
  {
    if i % 10 == 0 then Some(RED) else if i % 10 == 5 then Some(GREEN) else None
  }

  /** The first `passes` passes of the LED loop, returning the codes written. */
  method LedLoop(passes: nat) returns (codes: seq<Option<int>>)
    ensures |codes| == passes
    ensures forall i :: 0 <= i < passes ==> codes[i] == ExpectedLed(i)
  {
    var cntr := 0;
    codes := [];
    var i := 0;
    while i < passes
      invariant 0 <= i <= passes
      invariant cntr == i % 10
      invariant |codes| == i && forall j :: 0 <= j < i ==> codes[j] == ExpectedLed(j)
    {
      var code: Option<int> := None;
      if cntr == 0 {
        code := Some(RED);
      }
      if cntr == 5 {
        code := Some(GREEN);
      }
      codes := codes + [code];
      cntr := cntr + 1;
      if cntr == 10 {
        cntr := 0;
      }
      i := i + 1;
    }
  }
}
