# CL/RTL send/recv adapters, in Dafny

This project models the bridge in `pclib/ifcs/SendRecvIfc.py` between PyMTL's
two ways of passing messages. On the RTL side a message moves over wires
`msg`, `en` and `rdy`, sampled once per tick. On the CL side the producer calls
a guarded method, and only while its guard is true. The model covers these parts:

- `RecvCL2SendRTL` (call to wire): the fields `recv_called`, `recv_rdy` and
  `msg_to_send`, the guarded method `recv` and the update blocks `up_recv_rdy_cl`
  and `up_send_rtl`. One tick runs them in the order the declared constraints
  fix: sample `rdy`, then maybe a call, then drive en/msg.
- `RecvRTL2SendCL` (wire to call): the fields `sent_msg` and `send_rdy`, and the
  blocks `up_recv_rtl_rdy` and `up_send_cl`, run in that order. The downstream
  consumer is a `Callee` object that has a guard and a log of accepted calls.
- `RecvIfcRTL.connect` and `SendIfcRTL.connect`: on a flavour mismatch they insert
  an adapter into a parent that keeps one counter per adapter kind. The adapter
  is named `<Kind>_<count>`.

Each adapter is a class whose methods update its fields in place. Each tick
method is tied to a pure step function. Lemmas about runs of that function
state the protocol properties. A guard violation is a broken precondition.
The input wires `send.rdy`, `recv.en` and `recv.msg` and the `reset` signal are
method parameters. Output ports are fields. Messages are integers, because
`msg_to_send` starts at 0. `Bits1` is `bool`.

Module `Pipeline` joins the two adapters back to back. This shows that the
constraints of both together deliver every producer call to the consumer
exactly once and in order.

Behaviour of the code that a reader might not expect. The model follows the code:

- `up_send_cl` checks only `recv.en` before it forwards (lines 192-196). Reset
  lowers `rdy` and `send_rdy` and nothing else. A producer that asserts en
  during reset is still forwarded. Reset stops forwarding only when the producer
  keeps the en/rdy protocol.
- In `RecvCL2SendRTL` the guard is the `rdy` wire of the same tick, because
  `up_recv_rdy_cl` runs before the guard is read (lines 153-155). So the guard
  is false in exactly the ticks where `rdy` is low, with no extra tick of delay.
- A tick in which nobody calls `recv` drives en low and leaves `msg` at the last
  message sent.

## Model

| member | source | states |
|---|---|---|
| `CallToWire.Step` | pclib/ifcs/SendRecvIfc.py:143-163 | one tick ends at a tick boundary: the call flag is cleared and msg shows the message slot; the guard equals the tick's `rdy`; from a boundary, en is set iff a call was made; msg is the call's message, or the old slot when there was no call |
| `CallToWire.Run` | pclib/ifcs/SendRecvIfc.py:143-163 | consecutive ticks give exactly one observation (guard, en, msg) per tick |
| `CallToWire.RunTickwise` | pclib/ifcs/SendRecvIfc.py:143-157 | in every tick of a run, the guard is that tick's `rdy`; en is set exactly in the ticks with a call and carries that call's message; an idle tick keeps msg at its previous value |
| `CallToWire.RunForwardsCallsInOrder` | pclib/ifcs/SendRecvIfc.py:143-163 | the messages driven with en set are exactly the accepted calls, in order: each call gives one en in its own tick, and en is never set without a call |
| `CallToWire.TwoCallScenario` | pclib/ifcs/SendRecvIfc.py:143-163 | calls with 5 in tick 0 and 7 in tick 2 while `rdy` is high give (en, msg) = (1,5), (0,5), (1,7), (0,7) |
| `CallToWire.RecvCL2SendRTL.constructor` | pclib/ifcs/SendRecvIfc.py:139-141 | a new adapter has no call, a low guard and message slot 0 |
| `CallToWire.RecvCL2SendRTL.UpRecvRdyCl` | pclib/ifcs/SendRecvIfc.py:149-151 | `recv_rdy` becomes the `send.rdy` wire, and no other field changes |
| `CallToWire.RecvCL2SendRTL.Recv` | pclib/ifcs/SendRecvIfc.py:160-163 | legal only while `recv_rdy` holds; it stores the message and sets `recv_called`, and changes no wire |
| `CallToWire.RecvCL2SendRTL.UpSendRtl` | pclib/ifcs/SendRecvIfc.py:143-147 | en becomes `recv_called` and msg becomes `msg_to_send`; then `recv_called` is cleared |
| `CallToWire.RecvCL2SendRTL.Tick` | pclib/ifcs/SendRecvIfc.py:153-158 | running sample, call, drive in the constrained order keeps the tick-boundary invariant and matches `Step`: the guard is `rdy`, en is set iff there was a call, and msg is the call's message or the old value |
| `WireToCall.Callee.Call` | pclib/ifcs/SendRecvIfc.py:195 | the downstream guarded call: legal only while the guard holds, and it records the message once |
| `WireToCall.Forwarded` | pclib/ifcs/SendRecvIfc.py:192-196 | a tick makes at most one downstream call, and makes one iff en is asserted |
| `WireToCall.Step` | pclib/ifcs/SendRecvIfc.py:186-198 | `rdy` equals `send_rdy`; both are true iff the consumer is ready and reset is low, so reset forces them low; `sent_msg` is None iff en is low, and otherwise is the msg wire unchanged; the old state plays no part |
| `WireToCall.Run` | pclib/ifcs/SendRecvIfc.py:186-198 | consecutive ticks give exactly one state per tick |
| `WireToCall.RunRecordsCalls` | pclib/ifcs/SendRecvIfc.py:192-196 | over a run, the messages recorded in `sent_msg` are exactly the downstream calls, in order |
| `WireToCall.RunTickwise` | pclib/ifcs/SendRecvIfc.py:186-196 | in every tick of a run, reset holds `rdy` and `send_rdy` low, and `sent_msg` is the msg wire when en is asserted and None otherwise |
| `WireToCall.ForwardingIgnoresReset` | pclib/ifcs/SendRecvIfc.py:188-196 | forwarding and `sent_msg` are the same whether reset is high or low |
| `WireToCall.CompliantProducerSilentInReset` | pclib/ifcs/SendRecvIfc.py:188-196 | when the producer asserts en only in ticks where the adapter drives `rdy` high, no tick with reset records a message, and a run with reset held throughout makes no downstream call |
| `WireToCall.RecvRTL2SendCL.constructor` | pclib/ifcs/SendRecvIfc.py:180-184 | a new adapter has `sent_msg` None and readiness low |
| `WireToCall.RecvRTL2SendCL.UpRecvRtlRdy` | pclib/ifcs/SendRecvIfc.py:186-189 | `send_rdy` and `recv.rdy` both become the consumer's guard and not reset |
| `WireToCall.RecvRTL2SendCL.UpSendCl` | pclib/ifcs/SendRecvIfc.py:191-196 | with en asserted it calls the consumer once with msg and records msg in `sent_msg`; otherwise it makes no call and `sent_msg` is None |
| `WireToCall.RecvRTL2SendCL.Tick` | pclib/ifcs/SendRecvIfc.py:198 | running compute-rdy and then forward matches `Step`, and extends the consumer's log by that tick's call, if any |
| `Resolver.Decimal` | pclib/ifcs/SendRecvIfc.py:46 | the counter's rendering is a non-empty string of decimal digits |
| `Resolver.DecimalRoundTrip` | pclib/ifcs/SendRecvIfc.py:46 | reading back a rendered counter gives the counter |
| `Resolver.AdapterNameInjective` | pclib/ifcs/SendRecvIfc.py:44-57 | two adapter names are equal iff the kinds and the counter values are equal |
| `Resolver.RegisteredNames` | pclib/ifcs/SendRecvIfc.py:44-65 | after n insertions of a kind, an adapter name of either kind is present iff it has that kind and an index below n |
| `Resolver.RegisteredKeys` | pclib/ifcs/SendRecvIfc.py:44-65 | after n insertions of a kind, the set of names present is exactly that kind's `_0` to `_<n-1>`, and nothing else |
| `Resolver.RegisteredSize` | pclib/ifcs/SendRecvIfc.py:44-65 | n insertions of one kind leave n distinct adapters, none overwritten |
| `Resolver.RegisteredDisjoint` | pclib/ifcs/SendRecvIfc.py:44-115 | adapters of the two kinds never share a name |
| `Resolver.RegistrySize` | pclib/ifcs/SendRecvIfc.py:44-115 | a parent holds as many adapters as its two counters add up to |
| `Resolver.RegistryInsert` | pclib/ifcs/SendRecvIfc.py:44-65 | bumping a counter adds exactly the adapter named with the old count, and that name was free |
| `Resolver.Insert` | pclib/ifcs/SendRecvIfc.py:44-65 | both `hasattr` branches register the adapter as `AdapterName`, the string `<Kind>_` followed by the decimal old count as at lines 46 and 96 (0 when there is no counter), under a name not yet taken, and add 1 to the counter; nothing else changes |
| `Resolver.RecvIfcRTLConnect` | pclib/ifcs/SendRecvIfc.py:37-66 | returns true iff the other side is a guarded caller; then one `RecvCL2SendRTL` adapter is added and its counter goes up by 1; otherwise the parent is unchanged |
| `Resolver.SendIfcRTLConnect` | pclib/ifcs/SendRecvIfc.py:87-116 | returns true iff the other side is a guarded callee; then one `RecvRTL2SendCL` adapter is added and its counter goes up by 1; otherwise the parent is unchanged |
| `Pipeline.DeliversInOrder` | pclib/ifcs/SendRecvIfc.py:143-198 | `Delivered` is the composed run of both adapters back to back, one tick feeding the call-to-wire side the driven `rdy` and the wire-to-call side the driven en/msg; over it the consumer receives exactly the producer's calls, as the call-to-wire side counts them, once each and in order |
| `Pipeline.ThreeMessages` | pclib/ifcs/SendRecvIfc.py:143-198 | pushing 5, 7, 11 with the consumer always ready delivers 5, 7, 11 |
| `Pipeline.Tick` | pclib/ifcs/SendRecvIfc.py:143-198 | one tick of both objects in constrained order: each object's new state is its own `Step`, with the call-to-wire side fed the `rdy` the wire-to-call side drives and the wire-to-call side fed the en/msg the call-to-wire side drives; the producer's guard is that `rdy`; en is set iff the producer called; the consumer side records and forwards exactly that call |

## Left out

- `CallToWire.RecvCL2SendRTL.Tick`, `CallToWire.Step`, `CallToWire.Run`, `CallToWire.RunTickwise`, `CallToWire.RunForwardsCallsInOrder`, `Pipeline.Delivered`, `Pipeline.DeliversInOrder` and `Pipeline.Tick`: a tick carries at most one `recv` call, so "every accepted call is driven" holds only under that limit. The source's guard stays true after a call, so a second call in the same tick would overwrite `msg_to_send`, and the first message would never be driven. `Recv` itself can still be called repeatedly, and its contract shows the overwrite.
- In `Pipeline`, reset acts only on the wire-to-call side, because `RecvCL2SendRTL` has no reset handling in the source.
- `line_trace` and `__str__`: they render through `enrdy_to_str`, and `ifcs_utils` is not part of this model.
- `connect_pairs`: the wiring of ports and methods between the adapter and the two endpoints is net resolution, which is not part of this model. Only the registration on the parent is modelled.
- The adapter object made by `connect` is recorded only by its kind in the parent's attribute map. Its construction with `MsgType` is not modelled.
- The parent's other attributes are not modelled. The model does not cover a clash between an adapter name and an attribute the user set by hand.
- The constraint scheduler (`add_constraints` with `U(...) < M(...)`): only the fixed per-tick order it produces is modelled.
- `GuardedCallerIfc`, `GuardedCalleeIfc` and the `guarded_ifc` decorator are not part of this model. A guard is a precondition, and the consumer is a guard plus a call log.
- `InPort`/`OutPort` typing, `Bits1` widths and the `int`-or-`Bits1` choice (lines 26-27 and 76-77): wires are `bool` and messages are `int`.
- `pymtl3/passes/WaveGenPass.py`: waveform tracing. It is output and code generation, not protocol logic.
