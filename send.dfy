/** The sending side of the producer/consumer split, src/demo/demo_send.py:
    module-level channel lists, the READY flag the MQTT callback raises, and
    the battery level sent along with each window. */
module Send {
  import opened Window
  import opened Buffers
  import opened Publishing
  import opened Wrappers

  const SEND_TIMESTEPS := 5
  const CLASSIFY_TOPIC := "Group_12/LSTM/classify/Nicholas"

  class Sender {
    const buffers: ChannelBuffers
    var ready: bool
    var batteryLife: int
    var outbox: seq<Message>

    ghost predicate Valid()
      reads this, buffers
    {
      buffers.Valid()
    }

    /** Module load: empty lists, READY = False, BATTERYLIFE = 0. */
    constructor ()
      ensures Valid() && fresh(buffers) && buffers.Samples == []
      ensures !ready && batteryLife == 0 && outbox == []
    {
      buffers := new ChannelBuffers();
      ready := false;
      batteryLife := 0;
      outbox := [];
    }

    /** The start of run: READY = False, then the first battery reading. */
    method Start(battery: int)
      modifies this
      ensures !ready && batteryLife == battery && outbox == old(outbox)
    {
      ready := false;
      batteryLife := battery;
    }

    /** on_message: print resp_dict["Prediction"], then READY = True. A reply
        without "Prediction" raises KeyError first and leaves READY alone. */
    method OnMessage(prediction: Option<string>)
      modifies this
      ensures ready == (old(ready) || prediction.Some?)
      ensures batteryLife == old(batteryLife) && outbox == old(outbox)
    {
      if prediction.Some? {
        ready := true;
      }
    }

    /** sending_data: stack the lists (in the corrected layout), publish
        {"data", "batterylife"} to the classify topic, then clear every list. */
    method SendingData() returns (data: seq<seq<real>>)
      requires Valid()
      modifies this, buffers
      ensures Valid() && buffers.Samples == []
      ensures data == Assemble(TRAINED_ORDER, old(buffers.Samples))
      ensures outbox == old(outbox) + [Message(CLASSIFY_TOPIC, DataPayload(data, batteryLife))]
      ensures ready == old(ready) && batteryLife == old(batteryLife)
    {
      data := buffers.LoadDataset();
      outbox := outbox + [Message(CLASSIFY_TOPIC, DataPayload(data, batteryLife))];
      buffers.Clear();
    }

    /** One pass of run's loop up to the wait for READY: five reads appended
        to all ten lists, then sending_data. */
    method Pass(readings: seq<Sample<real>>) returns (data: seq<seq<real>>)
      requires Valid() && buffers.Samples == []
      requires |readings| == SEND_TIMESTEPS && AllWellFormed(readings)
      modifies this, buffers
      ensures Valid() && buffers.Samples == []
      ensures data == Assemble(TRAINED_ORDER, readings)
      ensures |data| == 10 && forall k :: 0 <= k < 10 ==> |data[k]| == SEND_TIMESTEPS
      ensures outbox == old(outbox) + [Message(CLASSIFY_TOPIC, DataPayload(data, batteryLife))]
      ensures ready == old(ready) && batteryLife == old(batteryLife)
    {
      buffers.Collect(readings);
      assert buffers.Samples == readings;
      data := SendingData();
    }
  }

  /** READY only ever goes from False to True after the start of run: once
      a reply has arrived, any number of later passes each send one window
      and none of them waits for a reply. */
  method ReadyStaysRaised(s: Sender, passes: seq<seq<Sample<real>>>) returns (waits: bool)
    requires s.Valid() && s.ready && s.buffers.Samples == []
    requires forall i :: 0 <= i < |passes| ==> |passes[i]| == SEND_TIMESTEPS && AllWellFormed(passes[i])
    modifies s, s.buffers
    ensures s.Valid() && s.ready && s.buffers.Samples == []
    ensures |s.outbox| == |old(s.outbox)| + |passes|
    ensures !waits
  {
    var i := 0;
    while i < |passes|
      invariant 0 <= i <= |passes|
      invariant s.Valid() && s.ready && s.buffers.Samples == []
      invariant |s.outbox| == |old(s.outbox)| + i
    {
      var _ := s.Pass(passes[i]);
      i := i + 1;
    }
    waits := !s.ready;
  }
}
