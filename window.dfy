/** The ten sensor channels, the reading that feeds them once per tick, and
    the channel-major window handed to the classifier. */
module Window {

  /** The ten channel buffers (ACC_X_BUFFER ... BARO_BUFFER) and the ten
      IndividualSignals files carry the same channels. */
  datatype Channel = AccX | AccY | AccZ | GyroX | GyroY | GyroZ | MagX | MagY | MagZ | Baro

  /** One tick: the barometer reading and the nine-value movement reading
      (gyro x,y,z, accel x,y,z, mag x,y,z as the movement callback returns it). */
  datatype Sample<T> = Sample(baro: T, motion: seq<T>)

  predicate WellFormed<T>(s: Sample<T>) { |s.motion| >= 9 }

  predicate AllWellFormed<T>(samples: seq<Sample<T>>)
  {
    forall i :: 0 <= i < |samples| ==> WellFormed(samples[i])
  }

  /** The index map every copy of append_buffer and of the row writers uses:
      gyro <- motion[0..2], acc <- motion[3..5], mag <- motion[6..8], baro <- baro. */
  function Field<T>(c: Channel, s: Sample<T>): T
    requires WellFormed(s)
  {
    match c
    case GyroX => s.motion[0]
    case GyroY => s.motion[1]
    case GyroZ => s.motion[2]
    case AccX => s.motion[3]
    case AccY => s.motion[4]
    case AccZ => s.motion[5]
    case MagX => s.motion[6]
    case MagY => s.motion[7]
    case MagZ => s.motion[8]
    case Baro => s.baro
  }

  /** The feature index a channel has in the trained layout. */
  function TrainedPosition(c: Channel): (k: nat)
    ensures k < |TRAINED_ORDER| && TRAINED_ORDER[k] == c
  {
    match c
    case AccX => 0
    case AccY => 1
    case AccZ => 2
    case GyroX => 3
    case GyroY => 4
    case GyroZ => 5
    case MagX => 6
    case MagY => 7
    case MagZ => 8
    case Baro => 9
  }

  /** What one channel buffer holds after the given ticks were appended. */
  function ChannelOf<T>(samples: seq<Sample<T>>, c: Channel): (r: seq<T>)
    requires AllWellFormed(samples)
    ensures |r| == |samples|
    ensures forall i :: 0 <= i < |samples| ==> r[i] == Field(c, samples[i])
  {
    seq(|samples|, i requires 0 <= i < |samples| => Field(c, samples[i]))
  }

  lemma ChannelOfAppend<T>(samples: seq<Sample<T>>, s: Sample<T>, c: Channel)
    requires AllWellFormed(samples) && WellFormed(s)
    ensures AllWellFormed(samples + [s])
    ensures ChannelOf(samples + [s], c) == ChannelOf(samples, c) + [Field(c, s)]
  {
    assert AllWellFormed(samples + [s]) by {
      forall i | 0 <= i < |samples| + 1 ensures WellFormed((samples + [s])[i]) {
        if i < |samples| { assert (samples + [s])[i] == samples[i]; }
      }
    }
  }

  /** The layout the model is trained on (the files lstm training stacks):
      acc x,y,z, gyro x,y,z, mag x,y,z, baro. */
  const TRAINED_ORDER: seq<Channel> := [AccX, AccY, AccZ, GyroX, GyroY, GyroZ, MagX, MagY, MagZ, Baro]

  /** The layout load_dataset and sending_data actually stack: MAG_X_BUFFER
      three times in place of the three magnetometer axes. */
  const SENT_ORDER: seq<Channel> := [AccX, AccY, AccZ, GyroX, GyroY, GyroZ, MagX, MagX, MagX, Baro]

  /** dstack of the channel buffers taken in the given order, kept
      channel-major: one sequence of window values per classifier feature. */
  function Assemble<T>(order: seq<Channel>, samples: seq<Sample<T>>): (w: seq<seq<T>>)
    requires AllWellFormed(samples)
    ensures |w| == |order|
    ensures forall k :: 0 <= k < |order| ==> w[k] == ChannelOf(samples, order[k])
  {
    seq(|order|, k requires 0 <= k < |order| => ChannelOf(samples, order[k]))
  }

  /** Samples that agree on everything but the magnetometer's y and z axes. */
  predicate SameButMagYZ<T(==)>(a: Sample<T>, b: Sample<T>)
    requires WellFormed(a) && WellFormed(b)
  {
    forall c :: c != MagY && c != MagZ ==> Field(c, a) == Field(c, b)
  }

  /** As written, the window the classifier sees does not depend on the
      magnetometer's y and z axes at all. */
  lemma {:induction false} SentWindowIgnoresMagYZ<T>(a: seq<Sample<T>>, b: seq<Sample<T>>)
    requires AllWellFormed(a) && AllWellFormed(b) && |a| == |b|
    requires forall i :: 0 <= i < |a| ==> SameButMagYZ(a[i], b[i])
    ensures Assemble(SENT_ORDER, a) == Assemble(SENT_ORDER, b)
  {
    forall k | 0 <= k < |SENT_ORDER|
      ensures ChannelOf(a, SENT_ORDER[k]) == ChannelOf(b, SENT_ORDER[k])
    {
      var c := SENT_ORDER[k];
      assert c != MagY && c != MagZ;
      forall i | 0 <= i < |a| ensures ChannelOf(a, c)[i] == ChannelOf(b, c)[i] {
        assert SameButMagYZ(a[i], b[i]);
      }
    }
  }

  /** A concrete pair of one-tick windows that differ in magnetometer y and z
      yet reach the classifier as the same input. */
  lemma SentWindowCollision()
    ensures var a := [Sample(0, [0, 0, 0, 0, 0, 0, 0, 1, 1])];
            var b := [Sample(0, [0, 0, 0, 0, 0, 0, 0, 2, 2])];
            a != b && Assemble(SENT_ORDER, a) == Assemble(SENT_ORDER, b)
  {
    var a := [Sample(0, [0, 0, 0, 0, 0, 0, 0, 1, 1])];
    var b := [Sample(0, [0, 0, 0, 0, 0, 0, 0, 2, 2])];
    assert a[0].motion[7] != b[0].motion[7];
    SentWindowIgnoresMagYZ(a, b);
  }

  /** In the trained layout every channel is fed, so the window determines
      every field of every tick. */
  lemma {:induction false} TrainedWindowDeterminesSamples<T>(a: seq<Sample<T>>, b: seq<Sample<T>>)
    requires AllWellFormed(a) && AllWellFormed(b)
    requires Assemble(TRAINED_ORDER, a) == Assemble(TRAINED_ORDER, b)
    ensures |a| == |b|
    ensures forall i, c :: 0 <= i < |a| ==> Field(c, a[i]) == Field(c, b[i])
  {
    assert |ChannelOf(a, AccX)| == |ChannelOf(b, AccX)| by {
      assert Assemble(TRAINED_ORDER, a)[0] == Assemble(TRAINED_ORDER, b)[0];
    }
    forall i, c | 0 <= i < |a| ensures Field(c, a[i]) == Field(c, b[i]) {
      var k := TrainedPosition(c);
      assert Assemble(TRAINED_ORDER, a)[k] == Assemble(TRAINED_ORDER, b)[k];
      assert ChannelOf(a, c)[i] == ChannelOf(b, c)[i];
    }
  }

  /** The sent layout and the trained one agree on every feature but 7 and 8
      (mag y and mag z), which the sent layout fills with mag x. */
  lemma SentDiffersFromTrainedOnlyAtMagYZ()
    ensures forall k :: 0 <= k < 10 && k != 7 && k != 8 ==> SENT_ORDER[k] == TRAINED_ORDER[k]
    ensures SENT_ORDER[7] == MagX != TRAINED_ORDER[7] && SENT_ORDER[8] == MagX != TRAINED_ORDER[8]
  {
  }
}
