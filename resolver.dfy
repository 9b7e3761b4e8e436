/** Adapter insertion by `RecvIfcRTL.connect` and `SendIfcRTL.connect`:
    when a signal-based interface is joined to a call-based one, an adapter
    is built and registered on the parent under a counter-based name. */
module Resolver {

  /** The two adapter kinds; each has its own counter on a parent. */
  datatype AdapterKind = RecvCL2SendRTL | RecvRTL2SendCL

  /** What `connect` finds the other endpoint to be. */
  datatype Flavour = GuardedCaller | GuardedCallee | Unguarded

  /** The attribute-name prefix of an adapter kind; both are 15 long. */
  function Prefix(k: AdapterKind): (p: string)
    ensures |p| == 15
  {
    match k
    case RecvCL2SendRTL => "RecvCL2SendRTL_"
    case RecvRTL2SendCL => "RecvRTL2SendCL_"
  }

  function DigitChar(d: nat): char
    requires d < 10
  {
    (d + 48) as char
  }

  /** The decimal rendering of `n`, as Python's `str` gives it. */
  function Decimal(n: nat): (s: string)
    ensures |s| > 0
    ensures forall i | 0 <= i < |s| :: '0' <= s[i] <= '9'
    decreases n
  {
    if n < 10 then [DigitChar(n)] else Decimal(n / 10) + [DigitChar(n % 10)]
  }

  /** The number a string of decimal digits denotes. */
  function DecimalValue(s: string): int
    decreases |s|
  {
    if s == [] then 0 else 10 * DecimalValue(s[..|s| - 1]) + (s[|s| - 1] as int - 48)
  }

  /** Reading back a rendered counter gives the counter. */
  lemma {:induction false} DecimalRoundTrip(n: nat)
    ensures DecimalValue(Decimal(n)) == n
    decreases n
  {
    if n >= 10 {
      var s := Decimal(n);
      DecimalRoundTrip(n / 10);
      assert s[..|s| - 1] == Decimal(n / 10);
    }
  }

  /** The attribute name of the adapter inserted when the counter is `i`. */
  function AdapterName(k: AdapterKind, i: nat): string {
    Prefix(k) + Decimal(i)
  }

  /** Two insertions get the same name only if they are of the same kind
      with the same counter value. */
  lemma AdapterNameInjective(k1: AdapterKind, i1: nat, k2: AdapterKind, i2: nat)
    ensures AdapterName(k1, i1) == AdapterName(k2, i2) <==> k1 == k2 && i1 == i2
  {
    if AdapterName(k1, i1) == AdapterName(k2, i2) {
      var s := AdapterName(k1, i1);
      assert s[..15] == Prefix(k1) && s[..15] == Prefix(k2);
      assert Prefix(RecvCL2SendRTL)[4] != Prefix(RecvRTL2SendCL)[4];
      assert s[15..] == Decimal(i1) && s[15..] == Decimal(i2);
      DecimalRoundTrip(i1);
      DecimalRoundTrip(i2);
    }
  }

  /** The adapters of kind `k` on a parent whose counter reached `n`. */
  function Registered(k: AdapterKind, n: nat): map<string, AdapterKind>
    decreases n
  {
    if n == 0 then map[] else Registered(k, n - 1)[AdapterName(k, n - 1) := k]
  }

  /** The names registered for a counter `n` are exactly `_0` to `_<n-1>`
      of that kind. */
  lemma {:induction false} RegisteredNames(k: AdapterKind, n: nat, k': AdapterKind, i: nat)
    ensures AdapterName(k', i) in Registered(k, n) <==> k' == k && i < n
    decreases n
  {
    if n > 0 {
      RegisteredNames(k, n - 1, k', i);
      AdapterNameInjective(k', i, k, n - 1);
    }
  }

  /** The names registered for a counter `n` are exactly `_0` to `_<n-1>`
      of that kind, and nothing else. */
  lemma {:induction false} RegisteredKeys(k: AdapterKind, n: nat)
    ensures Registered(k, n).Keys == set i | 0 <= i < n :: AdapterName(k, i)
    decreases n
  {
    if n > 0 {
      RegisteredKeys(k, n - 1);
    }
  }

  /** No two insertions of one kind share a name: `n` insertions leave `n`
      adapters. */
  lemma {:induction false} RegisteredSize(k: AdapterKind, n: nat)
    ensures |Registered(k, n)| == n
    decreases n
  {
    if n > 0 {
      RegisteredSize(k, n - 1);
      RegisteredNames(k, n - 1, k, n - 1);
    }
  }

  /** Adapters of different kinds never share a name. */
  lemma {:induction false} RegisteredDisjoint(a: nat, b: nat)
    ensures Registered(RecvCL2SendRTL, a).Keys !! Registered(RecvRTL2SendCL, b).Keys
    decreases a
  {
    if a > 0 {
      RegisteredDisjoint(a - 1, b);
      RegisteredNames(RecvRTL2SendCL, b, RecvCL2SendRTL, a - 1);
    }
  }

  /** A counter that was never set reads as 0, as `hasattr` decides. */
  function CountOf(counts: map<AdapterKind, nat>, k: AdapterKind): nat {
    if k in counts then counts[k] else 0
  }

  /** The adapters a parent holds, given its counters. */
  function Registry(counts: map<AdapterKind, nat>): map<string, AdapterKind> {
    Registered(RecvCL2SendRTL, CountOf(counts, RecvCL2SendRTL))
      + Registered(RecvRTL2SendCL, CountOf(counts, RecvRTL2SendCL))
  }

  /** Names are distinct across the whole parent: it holds as many
      adapters as both counters together. */
  lemma RegistrySize(counts: map<AdapterKind, nat>)
    ensures |Registry(counts)|
         == CountOf(counts, RecvCL2SendRTL) + CountOf(counts, RecvRTL2SendCL)
  {
    var a, b := CountOf(counts, RecvCL2SendRTL), CountOf(counts, RecvRTL2SendCL);
    var ma, mb := Registered(RecvCL2SendRTL, a), Registered(RecvRTL2SendCL, b);
    RegisteredSize(RecvCL2SendRTL, a);
    RegisteredSize(RecvRTL2SendCL, b);
    RegisteredDisjoint(a, b);
    assert (ma + mb).Keys == ma.Keys + mb.Keys;
    assert ma.Keys * mb.Keys == {};
    assert |ma.Keys + mb.Keys| == |ma.Keys| + |mb.Keys|;
  }

  /** Bumping the counter of `k` adds exactly the adapter named with the
      old counter value, a name not yet taken. */
  lemma RegistryInsert(counts: map<AdapterKind, nat>, k: AdapterKind)
    ensures AdapterName(k, CountOf(counts, k)) !in Registry(counts)
    ensures Registry(counts[k := CountOf(counts, k) + 1])
         == Registry(counts)[AdapterName(k, CountOf(counts, k)) := k]
  {
    var c := CountOf(counts, k);
    var other := if k == RecvCL2SendRTL then RecvRTL2SendCL else RecvCL2SendRTL;
    RegisteredNames(k, c, k, c);
    RegisteredNames(other, CountOf(counts, other), k, c);
  }

  /** The parent component, as far as adapter insertion changes it: its
      `<Kind>_count` attributes and the adapters set on it. */
  class Parent {
    var counts: map<AdapterKind, nat>
    var children: map<string, AdapterKind>

    ghost predicate Valid()
      reads this
    {
      children == Registry(counts)
    }

    constructor ()
      ensures Valid() && counts == map[] && children == map[]
    {
      counts, children := map[], map[];
    }
  }

  /** Register a new adapter of kind `k` on `parent`: with a counter
      present, under `<Kind>_<count>` and bump it; without one, under
      `<Kind>_0` and set it to 1. */
  method Insert(parent: Parent, k: AdapterKind) returns (name: string)
    requires parent.Valid()
    modifies parent
    ensures parent.Valid()
    ensures name == AdapterName(k, CountOf(old(parent.counts), k))
    ensures name !in old(parent.children)
    ensures parent.children == old(parent.children)[name := k]
    ensures parent.counts == old(parent.counts)[k := CountOf(old(parent.counts), k) + 1]
  {
    RegistryInsert(parent.counts, k);
    if k in parent.counts {
      var count := parent.counts[k];
      name := Prefix(k) + Decimal(count);
      parent.children := parent.children[name := k];
      parent.counts := parent.counts[k := count + 1];
    } else {
      name := Prefix(k) + "0";
      assert Decimal(0) == "0";
      parent.children := parent.children[name := k];
      parent.counts := parent.counts[k := 1];
    }
  }

  /** `RecvIfcRTL.connect`: a guarded caller on the other side gets a
      `RecvCL2SendRTL` adapter in between; anything else is refused. */
  method RecvIfcRTLConnect(other: Flavour, parent: Parent) returns (ok: bool)
    requires parent.Valid()
    modifies parent
    ensures parent.Valid()
    ensures ok <==> other == GuardedCaller
    ensures ok ==> (parent.counts ==
      old(parent.counts)[RecvCL2SendRTL := CountOf(old(parent.counts), RecvCL2SendRTL) + 1])
    ensures ok ==> (parent.children == old(parent.children)
      [AdapterName(RecvCL2SendRTL, CountOf(old(parent.counts), RecvCL2SendRTL)) := RecvCL2SendRTL])
    ensures ok ==> |parent.children| == |old(parent.children)| + 1
    ensures !ok ==> parent.counts == old(parent.counts) && parent.children == old(parent.children)
  {
    if other == GuardedCaller {
      var _ := Insert(parent, RecvCL2SendRTL);
      return true;
    }
    return false;
  }

  /** `SendIfcRTL.connect`: a guarded callee on the other side gets a
      `RecvRTL2SendCL` adapter in between; anything else is refused. */
  method SendIfcRTLConnect(other: Flavour, parent: Parent) returns (ok: bool)
    requires parent.Valid()
    modifies parent
    ensures parent.Valid()
    ensures ok <==> other == GuardedCallee
    ensures ok ==> (parent.counts ==
      old(parent.counts)[RecvRTL2SendCL := CountOf(old(parent.counts), RecvRTL2SendCL) + 1])
    ensures ok ==> (parent.children == old(parent.children)
      [AdapterName(RecvRTL2SendCL, CountOf(old(parent.counts), RecvRTL2SendCL)) := RecvRTL2SendCL])
    ensures ok ==> |parent.children| == |old(parent.children)| + 1
    ensures !ok ==> parent.counts == old(parent.counts) && parent.children == old(parent.children)
  {
    if other == GuardedCallee {
      var _ := Insert(parent, RecvRTL2SendCL);
      return true;
    }
    return false;
  }
}
