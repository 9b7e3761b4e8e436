/** A call-based producer feeding a call-based consumer through an RTL
    en/rdy link: a `RecvCL2SendRTL` drives the wires that a `RecvRTL2SendCL`
    samples, and the latter's `rdy` is the former's downstream `rdy`. Within
    a tick the declared constraints of both adapters order the blocks as
    `up_recv_rtl_rdy`, `up_recv_rdy_cl`, the producer's call, `up_send_rtl`,
    `up_send_cl`. */
module Pipeline {
  import opened Common
  import CallToWire
  import WireToCall

  /** One tick's stimulus: the consumer's guard, reset on the wire-to-call
      side, and the producer's call, if any. */
  datatype Stimulus = Stimulus(calleeRdy: bool, reset: bool, call: Option<Msg>)

  /** The producer calls only while its guard holds, and that guard is the
      `rdy` the wire-to-call side drives in the same tick. */
  predicate Legal(t: Stimulus) {
    t.call.Some? ==> t.calleeRdy && !t.reset
  }

  predicate AllLegal(ts: seq<Stimulus>) {
    forall i | 0 <= i < |ts| :: Legal(ts[i])
  }

  /** A run's later ticks are as legal as the whole run. */
  lemma LegalTail(ts: seq<Stimulus>)
    requires AllLegal(ts) && ts != []
    ensures AllLegal(ts[1..])
  {
  }

  /** What the call-to-wire side sees of a tick: the `rdy` the
      wire-to-call side drives, and the producer's call. */
  function FrontStimulus(t: Stimulus): CallToWire.Stimulus {
    CallToWire.Stimulus(t.calleeRdy && !t.reset, t.call)
  }

  function FrontStimuli(ts: seq<Stimulus>): (fs: seq<CallToWire.Stimulus>)
    ensures |fs| == |ts|
    decreases |ts|
  {
    if ts == [] then [] else [FrontStimulus(ts[0])] + FrontStimuli(ts[1..])
  }

  /** The calls the consumer receives over consecutive ticks. */
  function Delivered(front: CallToWire.State, back: WireToCall.State, ts: seq<Stimulus>): seq<Msg>
    requires !front.recvCalled && AllLegal(ts)
    decreases |ts|
  {
    if ts == [] then []
    else
      var t := ts[0];
      var front' := CallToWire.Step(front, FrontStimulus(t));
      var wire := WireToCall.Stimulus(t.calleeRdy, t.reset, front'.en, front'.msg);
      var back' := WireToCall.Step(back, wire);
      WireToCall.Forwarded(wire) + Delivered(front', back', ts[1..])
  }

  /** End to end, the consumer receives exactly the producer's messages,
      each once and in order. */
  lemma {:induction false} DeliversInOrder(front: CallToWire.State, back: WireToCall.State, ts: seq<Stimulus>)
    requires !front.recvCalled && AllLegal(ts)
    ensures Delivered(front, back, ts) == CallToWire.Calls(FrontStimuli(ts))
    decreases |ts|
  {
    if ts != [] {
      var t := ts[0];
      var front' := CallToWire.Step(front, FrontStimulus(t));
      var wire := WireToCall.Stimulus(t.calleeRdy, t.reset, front'.en, front'.msg);
      LegalTail(ts);
      DeliversInOrder(front', WireToCall.Step(back, wire), ts[1..]);
      assert FrontStimuli(ts)[1..] == FrontStimuli(ts[1..]);
    }
  }

  /** Pushing 5, 7 and 11 in three ticks with the consumer always ready
      delivers 5, 7 and 11. */
  lemma ThreeMessages()
    ensures Delivered(CallToWire.Init, WireToCall.Init,
                      [Stimulus(true, false, Some(5)), Stimulus(true, false, Some(7)),
                       Stimulus(true, false, Some(11))]) == [5, 7, 11]
  {
  }

  /** One tick of the two adapter objects, their blocks interleaved in the
      order the constraints impose. */
  method Tick(front: CallToWire.RecvCL2SendRTL, back: WireToCall.RecvRTL2SendCL,
              reset: bool, call: Option<Msg>)
    requires front.Valid()
    requires call.Some? ==> back.send.ready && !reset
    modifies front, back, back.send`log
    ensures front.Valid()
    ensures front.recvRdy == back.rdy == (back.send.ready && !reset)
    ensures front.en <==> call.Some?
    ensures back.sentMsg == call
    ensures front.Snapshot()
         == CallToWire.Step(old(front.Snapshot()), CallToWire.Stimulus(back.send.ready && !reset, call))
    ensures back.Snapshot()
         == WireToCall.Step(old(back.Snapshot()), WireToCall.Stimulus(back.send.ready, reset, front.en, front.msg))
    ensures back.send.log == old(back.send.log) + (if call.Some? then [call.value] else [])
  {
    back.UpRecvRtlRdy(reset);
    front.UpRecvRdyCl(back.rdy);
    if call.Some? {
      front.Recv(call.value);
    }
    front.UpSendRtl();
    back.UpSendCl(front.en, front.msg);
  }
}
