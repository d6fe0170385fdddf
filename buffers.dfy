/** The ten parallel channel lists that the live-inference scripts fill once
    per tick and empty after each window: the fields of lstm_model in
    src/demo/sensortag.py and the module-level lists of src/demo/demo_final_2.py
    and src/demo/demo_send.py. */
module Buffers {
  import opened Window

  lemma ChannelOfAppendAll(samples: seq<Sample<real>>, s: Sample<real>)
    requires AllWellFormed(samples) && WellFormed(s)
    ensures AllWellFormed(samples + [s])
    ensures forall c :: ChannelOf(samples + [s], c) == ChannelOf(samples, c) + [Field(c, s)]
  {
    forall c ensures ChannelOf(samples + [s], c) == ChannelOf(samples, c) + [Field(c, s)] {
      ChannelOfAppend(samples, s, c);
    }
    ChannelOfAppend(samples, s, Baro);
  }

  class ChannelBuffers {
    var accX: seq<real>
    var accY: seq<real>
    var accZ: seq<real>
    var gyroX: seq<real>
    var gyroY: seq<real>
    var gyroZ: seq<real>
    var magX: seq<real>
    var magY: seq<real>
    var magZ: seq<real>
    var baro: seq<real>

    /** The ticks appended since the buffers were last cleared. */
    ghost var Samples: seq<Sample<real>>

    function Buffer(c: Channel): seq<real>
      reads this
    {
      match c
      case AccX => accX
      case AccY => accY
      case AccZ => accZ
      case GyroX => gyroX
      case GyroY => gyroY
      case GyroZ => gyroZ
      case MagX => magX
      case MagY => magY
      case MagZ => magZ
      case Baro => baro
    }

    /** Every buffer holds, in order, its field of every appended tick; in
        particular all ten buffers have the same length. */
    ghost predicate Valid()
      reads this
    {
      AllWellFormed(Samples) &&
      forall c :: Buffer(c) == ChannelOf(Samples, c)
    }

    /** The common length of the ten buffers. */
    function Length(): (n: nat)
      reads this
      requires Valid()
      ensures n == |Samples| && forall c :: |Buffer(c)| == n
    {
      assert Buffer(Baro) == ChannelOf(Samples, Baro);
      |baro|
    }

    constructor ()
      ensures Valid() && Samples == []
    {
      accX, accY, accZ := [], [], [];
      gyroX, gyroY, gyroZ := [], [], [];
      magX, magY, magZ := [], [], [];
      baro := [];
      Samples := [];
    }

    /** append_buffer: one value onto each of the ten lists. */
    method Append(b: real, motion: seq<real>)
      requires Valid() && |motion| >= 9
      modifies this
      ensures Valid()
      ensures Samples == old(Samples) + [Sample(b, motion)]
    {
      var s := Sample(b, motion);
      ghost var before := Samples;
      ChannelOfAppendAll(before, s);
      baro := baro + [b];
      gyroX := gyroX + [motion[0]];
      gyroY := gyroY + [motion[1]];
      gyroZ := gyroZ + [motion[2]];
      accX := accX + [motion[3]];
      accY := accY + [motion[4]];
      accZ := accZ + [motion[5]];
      magX := magX + [motion[6]];
      magY := magY + [motion[7]];
      magZ := magZ + [motion[8]];
      Samples := Samples + [s];
    }

    /** load_dataset (and the stacking in sending_data) as written: the
        mag x list is appended three times and the mag y and mag z lists
        never reach the window. */
    method LoadDatasetAsWritten() returns (data: seq<seq<real>>)
      requires Valid()
      ensures data == Assemble(SENT_ORDER, Samples)
      ensures |data| == 10 && forall k :: 0 <= k < 10 ==> |data[k]| == |Samples|
    {
      data := [accX, accY, accZ, gyroX, gyroY, gyroZ, magX, magX, magX, baro];
      assert forall k :: 0 <= k < 10 ==> data[k] == Buffer(SENT_ORDER[k]);
    }

    /** load_dataset with each list appended once, in the layout of the
        training files: acc, gyro, mag x, y, z, baro. */
    method LoadDataset() returns (data: seq<seq<real>>)
      requires Valid()
      ensures data == Assemble(TRAINED_ORDER, Samples)
      ensures |data| == 10 && forall k :: 0 <= k < 10 ==> |data[k]| == |Samples|
    {
      data := [accX, accY, accZ, gyroX, gyroY, gyroZ, magX, magY, magZ, baro];
      assert forall k :: 0 <= k < 10 ==> data[k] == Buffer(TRAINED_ORDER[k]);
    }

    /** clear_buffer: every list emptied. */
    method Clear()
      requires Valid()
      modifies this
      ensures Valid() && Samples == []
      ensures forall c :: Buffer(c) == []
    {
      accX, accY, accZ := [], [], [];
      gyroX, gyroY, gyroZ := [], [], [];
      magX, magY, magZ := [], [], [];
      baro := [];
      Samples := [];
    }

    /** The for-loop that reads `readings` ticks and appends each (the body of
        the collection loop in SensorTag.run, run in demo_final_2 and run in
        demo_send). */
    method Collect(readings: seq<Sample<real>>)
      requires Valid() && AllWellFormed(readings)
      modifies this
      ensures Valid()
      ensures Samples == old(Samples) + readings
    {
      for i := 0 to |readings|
        invariant Valid()
        invariant Samples == old(Samples) + readings[..i]
      {
        assert WellFormed(readings[i]);
        Append(readings[i].baro, readings[i].motion);
        assert readings[..i + 1] == readings[..i] + [readings[i]];
      }
      assert readings[..|readings|] == readings;
    }
  }
}
