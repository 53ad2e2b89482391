/** SampleRing: one producer, one consumer, and a buffer of a power of two slots addressed by
  * masking. Each of push and pop is a load of its own counter, a load of the other's, a
  * copy and a store; the copy is two steps, so that an overlap would show.
  */
module SampleRing {
  import opened Basics
  import opened Modular

  // ---- the buffer's size and the mask ---------------------------------------------------------

  function Pow2(k: nat): (p: nat)
    ensures p >= 1
  {
    if k == 0 then 1 else 2 * Pow2(k - 1)
  }

  /** The least power of two that is at least 2 and at least n. */
  method RoundUpPow2(n: nat) returns (p: nat, ghost k: nat)
    ensures p == Pow2(k) && k >= 1 && p >= n
    ensures forall j :: 1 <= j < k ==> Pow2(j) < n
  {
    if n < 2 { return 2, 1; }
    p, k := 2, 1;
    while p < n
      invariant p == Pow2(k) && k >= 1
      invariant forall j :: 1 <= j < k ==> Pow2(j) < n
      decreases n - p
    {
      p, k := 2 * p, k + 1;
    }
  }

  /** Bitwise and. */
  function And(x: nat, y: nat): nat {
    if x == 0 || y == 0 then 0 else 2 * And(x / 2, y / 2) + (if x % 2 == 1 && y % 2 == 1 then 1 else 0)
  }

  /** Masking with size - 1 is the remainder by a power of two size. */
  lemma {:induction false} MaskIsModulo(x: nat, k: nat)
    ensures And(x, Pow2(k) - 1) == x % Pow2(k)
  {
    if k > 0 {
      MaskIsModulo(x / 2, k - 1);
      MaskStep(x, Pow2(k - 1));
    }
  }

  lemma MaskStep(x: nat, p: nat)
    requires p >= 1 && And(x / 2, p - 1) == (x / 2) % p
    ensures And(x, 2 * p - 1) == x % (2 * p)
  {
    HalfMask(p);
    HalfModulo(x, p);
    if x > 0 { AndStep(x, 2 * p - 1); }
  }

  lemma AndStep(x: nat, y: nat)
    requires x > 0 && y > 0
    ensures And(x, y) == 2 * And(x / 2, y / 2) + (if x % 2 == 1 && y % 2 == 1 then 1 else 0)
  {
  }

  lemma HalfMask(p: nat)
    requires p >= 1
    ensures (2 * p - 1) / 2 == p - 1 && (2 * p - 1) % 2 == 1
  {
  }

  lemma HalfModulo(x: nat, p: nat)
    requires p >= 1
    ensures x % (2 * p) == 2 * ((x / 2) % p) + x % 2
  {
    var q, r := x / 2 / p, (x / 2) % p;
    assert x / 2 == q * p + r;
    assert x == 2 * (x / 2) + x % 2;
    assert q * (2 * p) == 2 * (q * p);
    QuotientUnique(x, 2 * p, q, 2 * r + x % 2);
  }

  // ---- the ring as a queue --------------------------------------------------------------------

  /** What waits between tail and head, oldest first. */
  function Waiting<T>(b: seq<T>, tail: nat, head: nat): (s: seq<T>)
    requires |b| > 0 && tail <= head
    ensures |s| == head - tail
    decreases head
  {
    if tail == head then [] else Waiting(b, tail, head - 1) + [b[(head - 1) % |b|]]
  }

  lemma {:induction false} WaitingElsewhere<T>(b: seq<T>, tail: nat, head: nat, i: nat, x: T)
    requires |b| > 0 && tail <= head <= i < tail + |b|
    ensures Waiting(b[i % |b| := x], tail, head) == Waiting(b, tail, head)
  {
    if tail < head {
      WaitingElsewhere(b, tail, head - 1, i, x);
      DistinctSlots(head - 1, i, |b|);
    }
  }

  lemma {:induction false} WaitingOldest<T>(b: seq<T>, tail: nat, head: nat)
    requires |b| > 0 && tail < head
    ensures Waiting(b, tail, head) == [b[tail % |b|]] + Waiting(b, tail + 1, head)
  {
    if tail + 1 < head {
      WaitingOldest(b, tail, head - 1);
    }
  }

  /** Called one at a time: what push and pop mean. */
  class Ring<T(0)> {
    const buf: array<T>
    const mask: nat
    ghost const bits: nat
    var head: nat
    var tail: nat
    var dropped: nat

    ghost predicate Valid()
      reads this
    {
      buf.Length == Pow2(bits) && mask == buf.Length - 1 && tail <= head <= tail + buf.Length
    }

    ghost function Contents(): (s: seq<T>)
      requires Valid()
      reads this, buf
      ensures |s| == head - tail
    {
      Waiting(buf[..], tail, head)
    }

    constructor (capacity: nat)
      ensures Valid() && fresh(buf) && Contents() == [] && dropped == 0
      ensures buf.Length >= capacity && buf.Length >= 2
    {
      var p, k := RoundUpPow2(capacity);
      buf := new T[p];
      mask := p - 1;
      bits := k;
      head, tail, dropped := 0, 0, 0;
    }

    method Push(x: T) returns (ok: bool)
      requires Valid()
      modifies this, buf
      ensures Valid() && ok == (|old(Contents())| < buf.Length)
      ensures if ok then Contents() == old(Contents()) + [x] && dropped == old(dropped)
              else Contents() == old(Contents()) && dropped == old(dropped) + 1
    {
      if head - tail >= buf.Length {
        dropped := dropped + 1;
        return false;
      }
      MaskIsModulo(head, bits);
      WaitingElsewhere(buf[..], tail, head, head, x);
      ghost var was := buf[..];
      buf[And(head, mask)] := x;
      assert buf[..] == was[head % buf.Length := x];
      head := head + 1;
      return true;
    }

    method Pop() returns (x: Option<T>)
      requires Valid()
      modifies this
      ensures Valid() && dropped == old(dropped)
      ensures if old(Contents()) == [] then x.None? && Contents() == []
              else x == Some(old(Contents())[0]) && Contents() == old(Contents())[1..]
    {
      if tail == head { return None; }
      MaskIsModulo(tail, bits);
      x := Some(buf[And(tail, mask)]);
      WaitingOldest(buf[..], tail, head);
      tail := tail + 1;
    }
  }
}

/** The same ring with push and pop interleaved step by step. */
module SampleRingRuns {
  import opened Basics
  import opened Modular
  import opened SampleRing

  /** Where each side stands, with the counters it has loaded. */
  datatype Producer<T> = Resting | Pushing(x: T) | Loaded(x: T, head: nat) | Writing(x: T, head: nat)
      | Written(head: nat)
  datatype Consumer = Idle | Popping(tail: nat) | Reading(tail: nat) | Read(tail: nat)

  /** A slot being written holds nothing readable. */
  datatype State<T> = State(bits: nat, buf: seq<Option<T>>, head: nat, tail: nat, dropped: nat,
                            producer: Producer<T>, consumer: Consumer,
                            taken: Option<T>, pushes: nat, accepted: seq<T>, popped: seq<Option<T>>)

  datatype Action<T> =
    | Push(x: T)
    | LoadHead
    | LoadTail
    | EndWrite
    | StoreHead
    | Pop
    | LoadTheirHead
    | Copy
    | StoreTail

  function Slot<T>(s: State<T>, n: nat): (i: nat)
    requires |s.buf| > 0
  {
    And(n, |s.buf| - 1)
  }

  predicate Enabled<T>(s: State<T>, a: Action<T>) {
    match a
    case Push(_) => s.producer.Resting?
    case LoadHead => s.producer.Pushing?
    case LoadTail => s.producer.Loaded?
    case EndWrite => s.producer.Writing?
    case StoreHead => s.producer.Written?
    case Pop => s.consumer.Idle?
    case LoadTheirHead => s.consumer.Popping?
    case Copy => s.consumer.Reading?
    case StoreTail => s.consumer.Read?
  }

  /** The buffer was sized by RoundUpPow2. */
  predicate Sized<T>(s: State<T>) { s.bits >= 1 && |s.buf| == Pow2(s.bits) }

  lemma SlotIsModulo<T>(s: State<T>, n: nat)
    requires Sized(s)
    ensures |s.buf| >= 1 && Slot(s, n) == n % |s.buf|
  {
    MaskIsModulo(n, s.bits);
  }

  function Next<T>(s: State<T>, a: Action<T>): State<T>
    requires Enabled(s, a) && Sized(s)
  {
    match a
    case Push(x) => s.(producer := Pushing(x), pushes := s.pushes + 1)
    case LoadHead => s.(producer := Loaded(s.producer.x, s.head))
    case LoadTail =>
      if s.producer.head - s.tail >= |s.buf| then s.(producer := Resting, dropped := s.dropped + 1)
      else
        SlotIsModulo(s, s.producer.head);
        s.(producer := Writing(s.producer.x, s.producer.head), buf := s.buf[Slot(s, s.producer.head) := None],
           accepted := s.accepted + [s.producer.x])
    case EndWrite =>
      SlotIsModulo(s, s.producer.head);
      s.(producer := Written(s.producer.head), buf := s.buf[Slot(s, s.producer.head) := Some(s.producer.x)])
    case StoreHead => s.(producer := Resting, head := s.producer.head + 1)
    case Pop => s.(consumer := Popping(s.tail))
    case LoadTheirHead => s.(consumer := if s.consumer.tail == s.head then Idle else Reading(s.consumer.tail))
    case Copy =>
      SlotIsModulo(s, s.consumer.tail);
      s.(consumer := Read(s.consumer.tail), taken := s.buf[Slot(s, s.consumer.tail)])
    case StoreTail => s.(consumer := Idle, tail := s.consumer.tail + 1, popped := s.popped + [s.taken])
  }

  function Start<T>(bits: nat): State<T> {
    State(bits, seq(Pow2(bits), _ => None), 0, 0, 0, Resting, Idle, None, 0, [], [])
  }

  // ---- the invariant ---------------------------------------------------------------------------

  ghost predicate ProducerInv<T>(s: State<T>) {
    && (s.producer.Loaded? || s.producer.Writing? || s.producer.Written? ==> s.producer.head == s.head)
    && (s.producer.Writing? || s.producer.Written? ==> s.head - s.tail < |s.buf|)
    && (if s.producer.Writing? || s.producer.Written? then |s.accepted| == s.head + 1 else |s.accepted| == s.head)
    && (s.producer.Writing? ==> s.accepted[s.head] == s.producer.x)
    && s.pushes == |s.accepted| + s.dropped + (if s.producer.Pushing? || s.producer.Loaded? then 1 else 0)
  }

  ghost predicate ConsumerInv<T>(s: State<T>) {
    && (!s.consumer.Idle? ==> s.consumer.tail == s.tail)
    && (s.consumer.Reading? || s.consumer.Read? ==> s.tail < s.head)
    && (s.consumer.Read? ==> s.tail < |s.accepted| && s.taken == Some(s.accepted[s.tail]))
  }

  /** Every slot between the tail and the head holds its sample. */
  ghost predicate BufferInv<T>(s: State<T>)
    requires |s.buf| > 0
  {
    && (forall k :: s.tail <= k < s.head && k < |s.accepted| ==> s.buf[k % |s.buf|] == Some(s.accepted[k]))
    && (s.producer.Written? && s.head < |s.accepted| ==> s.buf[s.head % |s.buf|] == Some(s.accepted[s.head]))
  }

  /** What was popped is a prefix of what was accepted, whole and in order. */
  ghost predicate PoppedInv<T>(s: State<T>) {
    |s.popped| == s.tail <= |s.accepted| && forall k :: 0 <= k < s.tail ==> s.popped[k] == Some(s.accepted[k])
  }

  ghost predicate Inv<T>(s: State<T>) {
    && Sized(s) && |s.buf| > 0 && s.tail <= s.head <= s.tail + |s.buf| && s.head <= |s.accepted|
    && ProducerInv(s) && ConsumerInv(s) && BufferInv(s) && PoppedInv(s)
  }

  lemma LoadTailKeeps<T>(s: State<T>)
    requires Inv(s) && Enabled(s, LoadTail)
    ensures Inv(Next(s, LoadTail))
  {
    var n := Next(s, LoadTail);
    if s.producer.head - s.tail < |s.buf| {
      SlotIsModulo(s, s.head);
      forall k | s.tail <= k < s.head ensures n.buf[k % |s.buf|] == Some(s.accepted[k]) {
        DistinctSlots(k, s.head, |s.buf|);
      }
    }
  }

  lemma EndWriteKeeps<T>(s: State<T>)
    requires Inv(s) && Enabled(s, EndWrite)
    ensures Inv(Next(s, EndWrite))
  {
    var n := Next(s, EndWrite);
    SlotIsModulo(s, s.head);
    forall k | s.tail <= k < s.head ensures n.buf[k % |s.buf|] == Some(s.accepted[k]) {
      DistinctSlots(k, s.head, |s.buf|);
    }
  }

  lemma CopyKeeps<T>(s: State<T>)
    requires Inv(s) && Enabled(s, Copy)
    ensures Inv(Next(s, Copy))
  {
    SlotIsModulo(s, s.tail);
  }

  lemma OtherStepKeeps<T>(s: State<T>, a: Action<T>)
    requires Inv(s) && Enabled(s, a) && !a.LoadTail? && !a.EndWrite? && !a.Copy?
    ensures Inv(Next(s, a))
  {
  }

  lemma StartInv<T>(bits: nat)
    requires bits >= 1
    ensures Inv(Start<T>(bits))
  {
  }

  ghost predicate Run<T>(states: seq<State<T>>, actions: seq<Action<T>>) {
    && |states| == |actions| + 1 && Sized(states[0]) && states[0] == Start(states[0].bits)
    && forall k :: 0 <= k < |actions| ==>
         Enabled(states[k], actions[k]) && Sized(states[k]) && states[k + 1] == Next(states[k], actions[k])
  }

  lemma {:induction false} InvAlways<T>(states: seq<State<T>>, actions: seq<Action<T>>, k: nat)
    requires Run(states, actions) && k <= |actions|
    ensures Inv(states[k])
  {
    if k == 0 {
      StartInv<T>(states[0].bits);
    } else {
      InvAlways(states, actions, k - 1);
      var s, a := states[k - 1], actions[k - 1];
      assert Enabled(s, a) && states[k] == Next(s, a);
      if a.LoadTail? { LoadTailKeeps(s); }
      else if a.EndWrite? { EndWriteKeeps(s); }
      else if a.Copy? { CopyKeeps(s); }
      else { OtherStepKeeps(s, a); }
    }
  }

  /** In every interleaving the pops are the accepted pushes, whole and in order; each push
    * is accepted or dropped; and no slot is read while it is written. */
  lemma PopsAreAcceptedPushes<T>(states: seq<State<T>>, actions: seq<Action<T>>, k: nat)
    requires Run(states, actions) && k <= |actions|
    ensures var s := states[k];
            && |s.popped| <= |s.accepted|
            && (forall j :: 0 <= j < |s.popped| ==> s.popped[j] == Some(s.accepted[j]))
            && (s.producer.Resting? ==> s.pushes == |s.accepted| + s.dropped)
            && |s.accepted| - |s.popped| <= |s.buf|
    ensures var s := states[k];
            s.producer.Writing? && s.consumer.Reading? ==>
              |s.buf| > 0 && Slot(s, s.producer.head) != Slot(s, s.consumer.tail)
  {
    InvAlways(states, actions, k);
    var s := states[k];
    if s.producer.Writing? && s.consumer.Reading? {
      SlotIsModulo(s, s.head);
      SlotIsModulo(s, s.tail);
      DistinctSlots(s.tail, s.head, |s.buf|);
    }
  }
}
