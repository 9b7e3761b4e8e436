/** The wire-to-call adapter `RecvRTL2SendCL`: a signal-based producer
    drives en/msg, and the adapter calls the guarded method of a call-based
    consumer, offering that consumer's guard back as the `rdy` wire. */
module WireToCall {
  import opened Common

  /** The downstream consumer seen through its guarded method: a guard and
      the record of the calls it has accepted. */
  class Callee {
    var ready: bool
    var log: seq<Msg>

    constructor (ready: bool)
      ensures this.ready == ready && log == []
    {
      this.ready := ready;
      log := [];
    }

    /** The guarded method: legal only while the guard holds. */
    method Call(m: Msg)
      requires ready
      modifies this`log
      ensures log == old(log) + [m]
    {
      log := log + [m];
    }
  }

  /** The adapter's private state and its driven `recv.rdy` output port. */
  datatype State = State(sentMsg: Option<Msg>, sendRdy: bool, rdy: bool)

  /** The state after construction. */
  const Init := State(None, false, false)

  /** One tick's stimulus: the consumer's guard, `reset`, and the
      producer's en and msg wires. */
  datatype Stimulus = Stimulus(calleeRdy: bool, reset: bool, en: bool, msg: Msg)

  /** `up_send_cl` calls the consumer whenever en is asserted, so en may
      only be asserted while the consumer's guard holds. */
  predicate Legal(t: Stimulus) {
    t.en ==> t.calleeRdy
  }

  predicate AllLegal(ts: seq<Stimulus>) {
    forall i | 0 <= i < |ts| :: Legal(ts[i])
  }

  /** A run's later ticks are as legal as the whole run. */
  lemma LegalTail(ts: seq<Stimulus>)
    requires AllLegal(ts) && ts != []
    ensures AllLegal(ts[1..])
  {
  }

  /** The calls `up_send_cl` makes on the consumer in one tick. */
  function Forwarded(t: Stimulus): (ms: seq<Msg>)
    ensures |ms| <= 1
    ensures ms != [] <==> t.en
  {
    if t.en then [t.msg] else []
  }

  /** One tick in the declared order: `up_recv_rtl_rdy` computes readiness,
      then `up_send_cl` forwards. Both blocks overwrite every field, so the
      new state does not depend on the old one. */
  function Step(s: State, t: Stimulus): (r: State)
    requires Legal(t)
    ensures r.rdy == r.sendRdy
    ensures t.reset ==> !r.rdy
    ensures r.rdy <==> t.calleeRdy && !t.reset
    ensures r.sentMsg.None? <==> !t.en
    ensures t.en ==> r.sentMsg.value == t.msg
  {
    var rdy := t.calleeRdy && !t.reset;
    var afterRdy := s.(sendRdy := rdy, rdy := rdy);
    afterRdy.(sentMsg := if t.en then Some(t.msg) else None)
  }

  /** The states at the ends of consecutive ticks. */
  function Run(s: State, ts: seq<Stimulus>): (ss: seq<State>)
    requires AllLegal(ts)
    ensures |ss| == |ts|
    decreases |ts|
  {
    if ts == [] then []
    else
      var s' := Step(s, ts[0]);
      [s'] + Run(s', ts[1..])
  }

  /** All the consumer's calls over consecutive ticks. */
  function CallLog(ts: seq<Stimulus>): seq<Msg> {
    if ts == [] then [] else Forwarded(ts[0]) + CallLog(ts[1..])
  }

  /** The `sent_msg` field of each state. */
  function SentMsgs(ss: seq<State>): seq<Option<Msg>> {
    seq(|ss|, i requires 0 <= i < |ss| => ss[i].sentMsg)
  }

  /** The messages recorded in `sent_msg` over a run are exactly the calls
      made on the consumer, in order: what is recorded is what was sent. */
  lemma {:induction false} RunRecordsCalls(s: State, ts: seq<Stimulus>)
    requires AllLegal(ts)
    ensures Present(SentMsgs(Run(s, ts))) == CallLog(ts)
    decreases |ts|
  {
    if ts != [] {
      LegalTail(ts);
      var s' := Step(s, ts[0]);
      RunRecordsCalls(s', ts[1..]);
      assert SentMsgs(Run(s, ts))[1..] == SentMsgs(Run(s', ts[1..]));
    }
  }

  /** In every tick of a run, reset holds `rdy` low, and a message reaches
      the consumer exactly when en is asserted, unchanged. */
  lemma {:induction false} RunTickwise(s: State, ts: seq<Stimulus>, i: nat)
    requires AllLegal(ts) && i < |ts|
    ensures ts[i].reset ==> !Run(s, ts)[i].rdy && !Run(s, ts)[i].sendRdy
    ensures Run(s, ts)[i].sentMsg == if ts[i].en then Some(ts[i].msg) else None
    decreases i
  {
    if i > 0 {
      LegalTail(ts);
      RunTickwise(Step(s, ts[0]), ts[1..], i - 1);
    }
  }

  /** Reset gates only readiness: with en asserted under reset, the
      message is still forwarded, and the forwarding does not depend on
      reset at all. */
  lemma ForwardingIgnoresReset(t: Stimulus)
    requires Legal(t)
    ensures forall s :: Step(s, t.(reset := true)).sentMsg == Step(s, t.(reset := false)).sentMsg
    ensures Forwarded(t.(reset := true)) == Forwarded(t)
  {
  }

  /** A producer that keeps the en/rdy protocol, asserting en only in
      ticks where the adapter drives `rdy` high, never reaches the consumer
      in a tick where reset holds, nor at all while reset stays high. */
  lemma {:induction false} CompliantProducerSilentInReset(s: State, ts: seq<Stimulus>)
    requires AllLegal(ts)
    requires forall i | 0 <= i < |ts| :: ts[i].en ==> Run(s, ts)[i].rdy
    ensures forall i | 0 <= i < |ts| && ts[i].reset :: Run(s, ts)[i].sentMsg.None?
    ensures (forall i | 0 <= i < |ts| :: ts[i].reset) ==> CallLog(ts) == []
    decreases |ts|
  {
    forall i | 0 <= i < |ts| && ts[i].reset ensures Run(s, ts)[i].sentMsg.None? {
      RunTickwise(s, ts, i);
    }
    if ts != [] {
      var s' := Step(s, ts[0]);
      LegalTail(ts);
      forall i | 0 <= i < |ts[1..]| ensures ts[1..][i].en ==> Run(s', ts[1..])[i].rdy {
        assert Run(s, ts)[i + 1] == Run(s', ts[1..])[i];
      }
      CompliantProducerSilentInReset(s', ts[1..]);
      if forall i | 0 <= i < |ts| :: ts[i].reset {
        assert ts[0].reset;
        assert forall i | 0 <= i < |ts[1..]| :: ts[1..][i].reset by {
          forall i | 0 <= i < |ts[1..]| ensures ts[1..][i].reset { assert ts[1..][i] == ts[i + 1]; }
        }
      }
    }
  }

  /** The adapter component, its fields updated in place by its two update
      blocks; `send` is the consumer it calls. */
  class RecvRTL2SendCL {
    var sentMsg: Option<Msg>
    var sendRdy: bool
    /** The `recv.rdy` output port. */
    var rdy: bool
    const send: Callee

    ghost function Snapshot(): State
      reads this
    {
      State(sentMsg, sendRdy, rdy)
    }

    constructor (send: Callee)
      ensures this.send == send && Snapshot() == Init
    {
      this.send := send;
      sentMsg, sendRdy, rdy := None, false, false;
    }

    /** `up_recv_rtl_rdy`: readiness is the consumer's guard unless reset
        holds, and is both kept and driven onto `recv.rdy`. */
    method UpRecvRtlRdy(reset: bool)
      modifies this`sendRdy, this`rdy
      ensures sendRdy == rdy == (send.ready && !reset)
    {
      sendRdy := send.ready && !reset;
      rdy := send.ready && !reset;
    }

    /** `up_send_cl`: when en is asserted, call the consumer once with the
        msg wire and record it; otherwise record that nothing was sent. */
    method UpSendCl(en: bool, m: Msg)
      requires en ==> send.ready
      modifies this`sentMsg, send`log
      ensures sentMsg == if en then Some(m) else None
      ensures send.log == old(send.log) + (if en then [m] else [])
    {
      sentMsg := None;
      if en {
        send.Call(m);
        sentMsg := Some(m);
      }
    }

    /** One tick in the order the declared constraint imposes. */
    method Tick(reset: bool, en: bool, m: Msg)
      requires en ==> send.ready
      modifies this, send`log
      ensures Snapshot() == Step(old(Snapshot()), Stimulus(send.ready, reset, en, m))
      ensures send.log == old(send.log) + Forwarded(Stimulus(send.ready, reset, en, m))
    {
      UpRecvRtlRdy(reset);
      UpSendCl(en, m);
    }
  }
}
