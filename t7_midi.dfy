/**
 * T7 Midi (src/T7Midi.cpp): reads MIDI, tags each message with the driver
 * and device it came from, and relays it leftwards through the expander
 * message buffers, forwarding whatever a T7 Midi on its right relays too.
 */
module T7Midi {
  import opened T7Types

  /** The relay messages for a run of MIDI messages from one input. */
  function Tagged(ms: seq<MidiMessage>, driverId: int, deviceId: int): (r: seq<T7MidiMessage>)
    ensures |r| == |ms|
    ensures forall i :: 0 <= i < |ms| ==> r[i] == MakeMidiMessage(ms[i], driverId, deviceId)
    decreases |ms|
  {
    if ms == [] then [] else [MakeMidiMessage(ms[0], driverId, deviceId)] + Tagged(ms[1..], driverId, deviceId)
  }

  /**
   * A T7 Midi module.  The two vectors are the module's own; `swapped`
   * records whether the engine's flips have exchanged which of them the
   * left expander's producer and consumer slots designate.  `midiInput`
   * holds the messages the MIDI input queue has received and not yet
   * shifted out.
   */
  class T7MidiModule {
    var midiInput: seq<MidiMessage>
    var driverId: int
    var deviceId: int
    var consumerMessage: seq<T7MidiMessage>
    var producerMessage: seq<T7MidiMessage>
    var swapped: bool
    var messageFlipRequested: bool

    /** The vector the left expander's producer slot designates. */
    function LeftProducer(): seq<T7MidiMessage>
      reads this
    {
      if swapped then consumerMessage else producerMessage
    }

    /** The vector the left expander's consumer slot designates. */
    function LeftConsumer(): seq<T7MidiMessage>
      reads this
    {
      if swapped then producerMessage else consumerMessage
    }

    /** The constructor wires the producer slot to `producerMessage` and the consumer slot to `consumerMessage`. */
    constructor (driverId: int, deviceId: int)
      ensures this.driverId == driverId && this.deviceId == deviceId
      ensures midiInput == [] && LeftProducer() == [] && LeftConsumer() == []
      ensures LeftProducer() == producerMessage && LeftConsumer() == consumerMessage
      ensures !messageFlipRequested
    {
      this.driverId := driverId;
      this.deviceId := deviceId;
      midiInput := [];
      consumerMessage := [];
      producerMessage := [];
      swapped := false;
      messageFlipRequested := false;
    }

    /** The user picks another MIDI driver or device; later tags carry the new ids. */
    method SelectDevice(driverId: int, deviceId: int)
      modifies this
      ensures this.driverId == driverId && this.deviceId == deviceId
      ensures midiInput == old(midiInput) && swapped == old(swapped)
      ensures LeftProducer() == old(LeftProducer()) && LeftConsumer() == old(LeftConsumer())
      ensures messageFlipRequested == old(messageFlipRequested)
    {
      this.driverId := driverId;
      this.deviceId := deviceId;
    }

    /** A message arriving from the MIDI driver joins the input queue. */
    method Receive(msg: MidiMessage)
      modifies this
      ensures driverId == old(driverId) && deviceId == old(deviceId)
      ensures midiInput == old(midiInput) + [msg]
      ensures LeftProducer() == old(LeftProducer()) && LeftConsumer() == old(LeftConsumer())
      ensures swapped == old(swapped) && messageFlipRequested == old(messageFlipRequested)
    {
      midiInput := midiInput + [msg];
    }

    method PushProducer(m: T7MidiMessage)
      modifies this
      ensures driverId == old(driverId) && deviceId == old(deviceId)
      ensures LeftProducer() == old(LeftProducer()) + [m]
      ensures LeftConsumer() == old(LeftConsumer())
      ensures midiInput == old(midiInput) && swapped == old(swapped)
      ensures messageFlipRequested == old(messageFlipRequested)
    {
      if swapped {
        consumerMessage := consumerMessage + [m];
      } else {
        producerMessage := producerMessage + [m];
      }
    }

    method ClearConsumer()
      modifies this
      ensures driverId == old(driverId) && deviceId == old(deviceId)
      ensures LeftConsumer() == []
      ensures LeftProducer() == old(LeftProducer())
      ensures midiInput == old(midiInput) && swapped == old(swapped)
      ensures messageFlipRequested == old(messageFlipRequested)
    {
      if swapped {
        producerMessage := [];
      } else {
        consumerMessage := [];
      }
    }

    /**
     * `process`: shift every received message into the producer vector,
     * tagged with the input's driver and device, then append what a T7 Midi
     * on the right (`right`, null when the right neighbour is anything else)
     * left in its consumer vector and empty that; ask for a flip when the
     * producer vector holds anything.  No message is lost, duplicated or
     * reordered.
     */
    method Process(right: T7MidiModule?)
      requires right != this
      modifies this, right
      ensures driverId == old(driverId) && deviceId == old(deviceId)
      ensures right != null ==> right.driverId == old(right.driverId) && right.deviceId == old(right.deviceId)
      ensures midiInput == []
      ensures LeftProducer() ==
        old(LeftProducer()) + Tagged(old(midiInput), driverId, deviceId)
          + (if right == null then [] else old(right.LeftConsumer()))
      ensures LeftConsumer() == old(LeftConsumer()) && swapped == old(swapped)
      ensures messageFlipRequested == (old(messageFlipRequested) || |LeftProducer()| > 0)
      ensures right != null ==>
        && right.LeftConsumer() == []
        && right.LeftProducer() == old(right.LeftProducer())
        && right.midiInput == old(right.midiInput)
        && right.swapped == old(right.swapped)
        && right.messageFlipRequested == old(right.messageFlipRequested)
    {
      DrainInput();
      if right != null {
        Forward(right);
      }
      if |LeftProducer()| > 0 {
        messageFlipRequested := true;
      }
    }

    /** The shift loop: every received message moves, tagged, to the producer vector. */
    method DrainInput()
      modifies this
      ensures driverId == old(driverId) && deviceId == old(deviceId)
      ensures midiInput == []
      ensures LeftProducer() == old(LeftProducer()) + Tagged(old(midiInput), driverId, deviceId)
      ensures LeftConsumer() == old(LeftConsumer()) && swapped == old(swapped)
      ensures messageFlipRequested == old(messageFlipRequested)
    {
      ghost var input := midiInput;
      ghost var start := LeftProducer();
      while |midiInput| > 0
        invariant |midiInput| <= |input|
        invariant midiInput == input[|input| - |midiInput|..]
        invariant LeftProducer() == start + Tagged(input[..|input| - |midiInput|], driverId, deviceId)
        invariant LeftConsumer() == old(LeftConsumer()) && swapped == old(swapped)
        invariant messageFlipRequested == old(messageFlipRequested)
        invariant driverId == old(driverId) && deviceId == old(deviceId)
        decreases |midiInput|
      {
        var msg := midiInput[0];
        ghost var n := |input| - |midiInput|;
        midiInput := midiInput[1..];
        PushProducer(MakeMidiMessage(msg, driverId, deviceId));
        TaggedSnoc(input[..n], msg, driverId, deviceId);
        assert input[..n + 1] == input[..n] + [msg];
      }
      assert input[..|input|] == input;
    }

    /** Move the right neighbour's consumer vector onto the end of this producer vector. */
    method Forward(right: T7MidiModule)
      requires right != this
      modifies this, right
      ensures driverId == old(driverId) && deviceId == old(deviceId)
      ensures right.driverId == old(right.driverId) && right.deviceId == old(right.deviceId)
      ensures LeftProducer() == old(LeftProducer()) + old(right.LeftConsumer())
      ensures LeftConsumer() == old(LeftConsumer()) && swapped == old(swapped)
      ensures midiInput == old(midiInput) && messageFlipRequested == old(messageFlipRequested)
      ensures right.LeftConsumer() == []
      ensures right.LeftProducer() == old(right.LeftProducer())
      ensures right.midiInput == old(right.midiInput)
      ensures right.swapped == old(right.swapped)
      ensures right.messageFlipRequested == old(right.messageFlipRequested)
    {
      var queue1 := right.LeftConsumer();
      ghost var start := LeftProducer();
      var i := 0;
      while i < |queue1|
        invariant 0 <= i <= |queue1|
        invariant LeftProducer() == start + queue1[..i]
        invariant LeftConsumer() == old(LeftConsumer()) && swapped == old(swapped)
        invariant midiInput == old(midiInput) && messageFlipRequested == old(messageFlipRequested)
        invariant unchanged(right)
        invariant driverId == old(driverId) && deviceId == old(deviceId)
      {
        PushProducer(queue1[i]);
        assert queue1[..i + 1] == queue1[..i] + [queue1[i]];
        i := i + 1;
      }
      assert queue1[..|queue1|] == queue1;
      right.ClearConsumer();
    }

    /**
     * The engine's flip between frames: when requested, the producer and
     * consumer slots exchange vectors and the request is cleared.
     */
    method EngineFlip()
      modifies this
      ensures driverId == old(driverId) && deviceId == old(deviceId)
      ensures old(messageFlipRequested) ==>
        LeftConsumer() == old(LeftProducer()) && LeftProducer() == old(LeftConsumer())
      ensures !old(messageFlipRequested) ==>
        LeftConsumer() == old(LeftConsumer()) && LeftProducer() == old(LeftProducer())
      ensures !messageFlipRequested && midiInput == old(midiInput)
    {
      if messageFlipRequested {
        swapped := !swapped;
        messageFlipRequested := false;
      }
    }
  }

  lemma {:induction false} TaggedSnoc(ms: seq<MidiMessage>, m: MidiMessage, driverId: int, deviceId: int)
    ensures Tagged(ms + [m], driverId, deviceId) == Tagged(ms, driverId, deviceId) + [MakeMidiMessage(m, driverId, deviceId)]
    decreases |ms|
  {
    if ms != [] {
      assert (ms + [m])[1..] == ms[1..] + [m];
      TaggedSnoc(ms[1..], m, driverId, deviceId);
    }
  }
}
