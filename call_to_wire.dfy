/** The call-to-wire adapter `RecvCL2SendRTL`: a call-based producer calls
    the guarded method `recv`, and the adapter drives the en/msg wires of a
    signal-based consumer, whose `rdy` wire it samples as the guard. */
module CallToWire {
  import opened Common

  /** The adapter's private state and its driven output ports `send.en`
      and `send.msg`, as seen between update blocks. */
  datatype State = State(recvCalled: bool, recvRdy: bool, msgToSend: Msg, en: bool, msg: Msg)

  /** The state after construction: no call, guard low, message slot 0. */
  const Init := State(false, false, 0, false, 0)

  /** What holds at every tick boundary: `up_send_rtl` has cleared the
      call flag and the msg wire shows the message slot. */
  predicate AtBoundary(s: State) {
    !s.recvCalled && s.msg == s.msgToSend
  }

  /** One tick's stimulus: the downstream `rdy` wire and the producer's
      call of `recv`, if it makes one. */
  datatype Stimulus = Stimulus(rdy: bool, call: Option<Msg>)

  /** The producer calls `recv` only while its guard is true; the guard is
      `recv_rdy` as sampled from `rdy` earlier in the same tick. */
  predicate Legal(t: Stimulus) {
    t.call.Some? ==> t.rdy
  }

  predicate AllLegal(ts: seq<Stimulus>) {
    forall i | 0 <= i < |ts| :: Legal(ts[i])
  }

  /** A run's later ticks are as legal as the whole run. */
  lemma LegalTail(ts: seq<Stimulus>)
    requires AllLegal(ts) && ts != []
    ensures AllLegal(ts[1..])
  {
  }

  /** One tick in the declared order: `up_recv_rdy_cl` samples `rdy`,
      then the producer may call `recv`, then `up_send_rtl` drives the
      wires and clears the call flag. */
  function Step(s: State, t: Stimulus): (r: State)
    requires Legal(t)
    ensures AtBoundary(r)
    ensures r.recvRdy == t.rdy
    ensures !s.recvCalled ==> (r.en <==> t.call.Some?)
    ensures r.msg == if t.call.Some? then t.call.value else s.msgToSend
  {
    var sampled := s.(recvRdy := t.rdy);
    var called :=
      if t.call.Some? then sampled.(msgToSend := t.call.value, recvCalled := true)
      else sampled;
    called.(en := called.recvCalled, msg := called.msgToSend, recvCalled := false)
  }

  /** What the rest of the system sees of one tick: the guard offered to
      the producer and the two driven wires. */
  datatype Observed = Observed(guard: bool, en: bool, msg: Msg)

  /** The observations of consecutive ticks, starting in state `s`. */
  function Run(s: State, ts: seq<Stimulus>): (os: seq<Observed>)
    requires AllLegal(ts)
    ensures |os| == |ts|
    decreases |ts|
  {
    if ts == [] then []
    else
      var s' := Step(s, ts[0]);
      [Observed(s'.recvRdy, s'.en, s'.msg)] + Run(s', ts[1..])
  }

  /** The messages the producer hands over, in call order. */
  function Calls(ts: seq<Stimulus>): seq<Msg> {
    if ts == [] then []
    else (if ts[0].call.Some? then [ts[0].call.value] else []) + Calls(ts[1..])
  }

  /** The messages on the msg wire in the ticks where en is asserted. */
  function Sent(os: seq<Observed>): seq<Msg> {
    if os == [] then []
    else (if os[0].en then [os[0].msg] else []) + Sent(os[1..])
  }

  /** Tick by tick: the guard is that tick's `rdy`, en is asserted exactly
      in the ticks with a call and carries that call's message, and an idle
      tick keeps the msg wire at its previous value. */
  lemma {:induction false} RunTickwise(s: State, ts: seq<Stimulus>, i: nat)
    requires AtBoundary(s) && AllLegal(ts) && i < |ts|
    ensures Run(s, ts)[i].guard == ts[i].rdy
    ensures Run(s, ts)[i].en <==> ts[i].call.Some?
    ensures ts[i].call.Some? ==> Run(s, ts)[i].msg == ts[i].call.value
    ensures ts[i].call.None? ==>
      Run(s, ts)[i].msg == if i == 0 then s.msg else Run(s, ts)[i - 1].msg
    decreases i
  {
    var s' := Step(s, ts[0]);
    LegalTail(ts);
    if i > 0 {
      RunTickwise(s', ts[1..], i - 1);
      if i > 1 {
        assert Run(s, ts)[i - 1] == Run(s', ts[1..])[i - 2];
      }
    }
  }

  /** Every accepted call is put on the wires exactly once, in call order,
      and en is never asserted without a call: nothing lost, duplicated or
      reordered. */
  lemma {:induction false} RunForwardsCallsInOrder(s: State, ts: seq<Stimulus>)
    requires !s.recvCalled && AllLegal(ts)
    ensures Sent(Run(s, ts)) == Calls(ts)
    decreases |ts|
  {
    if ts != [] {
      var s' := Step(s, ts[0]);
      LegalTail(ts);
      RunForwardsCallsInOrder(s', ts[1..]);
      var os := Run(s, ts);
      assert os[1..] == Run(s', ts[1..]);
    }
  }

  /** The two-call scenario: calls with 5 in tick 0 and 7 in tick 2 while
      `rdy` stays high show en only in those ticks, and the msg wire holds
      the last message in between. */
  lemma TwoCallScenario()
    ensures Run(Init, [Stimulus(true, Some(5)), Stimulus(true, None),
                       Stimulus(true, Some(7)), Stimulus(true, None)])
         == [Observed(true, true, 5), Observed(true, false, 5),
             Observed(true, true, 7), Observed(true, false, 7)]
  {
  }

  /** The adapter component, its fields updated in place by its update
      blocks and by the guarded method `recv`. */
  class RecvCL2SendRTL {
    var recvCalled: bool
    var recvRdy: bool
    var msgToSend: Msg
    /** The `send.en` output port. */
    var en: bool
    /** The `send.msg` output port. */
    var msg: Msg

    ghost function Snapshot(): State
      reads this
    {
      State(recvCalled, recvRdy, msgToSend, en, msg)
    }

    ghost predicate Valid()
      reads this
    {
      AtBoundary(Snapshot())
    }

    constructor ()
      ensures Valid() && Snapshot() == Init
    {
      recvCalled, recvRdy, msgToSend := false, false, 0;
      en, msg := false, 0;
    }

    /** `up_recv_rdy_cl`: latch the downstream `rdy` wire as the guard. */
    method UpRecvRdyCl(rdy: bool)
      modifies this`recvRdy
      ensures recvRdy == rdy
    {
      recvRdy := rdy;
    }

    /** The guarded method `recv`: legal only while `recv_rdy` holds; it
        stores the message and notes the call, and drives no wire. */
    method Recv(m: Msg)
      requires recvRdy
      modifies this`msgToSend, this`recvCalled
      ensures msgToSend == m && recvCalled
    {
      msgToSend := m;
      recvCalled := true;
    }

    /** `up_send_rtl`: en reports whether `recv` was called, msg the stored
        message; the call flag is then cleared for the next tick. */
    method UpSendRtl()
      modifies this`en, this`msg, this`recvCalled
      ensures en == old(recvCalled) && msg == old(msgToSend) && !recvCalled
    {
      en := recvCalled;
      msg := msgToSend;
      recvCalled := false;
    }

    /** One tick in the order the declared constraints impose. */
    method Tick(rdy: bool, call: Option<Msg>)
      requires Valid()
      requires call.Some? ==> rdy
      modifies this
      ensures Valid()
      ensures Snapshot() == Step(old(Snapshot()), Stimulus(rdy, call))
      ensures recvRdy == rdy
      ensures en <==> call.Some?
      ensures msg == if call.Some? then call.value else old(msg)
    {
      UpRecvRdyCl(rdy);
      if call.Some? {
        Recv(call.value);
      }
      UpSendRtl();
    }
  }
}
