/** Seqlock: one writer and a reader, word by word. A word of data_ is named by the store
  * that wrote it; store 0 is the initial value. The counter is 32 bits wide.
  */
module Seqlock {
  import opened Basics

  const WRAP: nat := 0x1_0000_0000
  const TRIES: nat := 16

  datatype Writer = Resting | Marked(done: nat)

  datatype Reader =
    | Waiting
    | Trying(tries: nat)
    | Copying(tries: nat, s1: nat, since: nat, out: seq<nat>)
    | Loaded(since: nat, until: nat, out: seq<nat>)
    | GaveUp

  /** `steps` counts the writer's counter stores without wrapping: two a store(). */
  datatype State = State(data: seq<nat>, steps: nat, writer: Writer, reader: Reader)

  function Counter(s: State): nat { s.steps % WRAP }

  /** The store now current, or in progress. */
  function Current(s: State): nat { (s.steps + 1) / 2 }

  datatype Action = Mark | WriteWord | Publish | Load | LoadCounter | CopyWord | Check

  predicate Enabled(s: State, a: Action) {
    match a
    case Mark => s.writer.Resting?
    case WriteWord => s.writer.Marked? && s.writer.done < |s.data|
    case Publish => s.writer.Marked? && s.writer.done == |s.data|
    case Load => !s.reader.Trying? && !s.reader.Copying?
    case LoadCounter => s.reader.Trying?
    case CopyWord => s.reader.Copying? && |s.reader.out| < |s.data|
    case Check => s.reader.Copying? && |s.reader.out| == |s.data|
  }

  function Retry(tries: nat): Reader { if tries + 1 < TRIES then Trying(tries + 1) else GaveUp }

  function Next(s: State, a: Action): State
    requires Enabled(s, a)
  {
    match a
    case Mark => s.(steps := s.steps + 1, writer := Marked(0))
    case WriteWord => s.(data := s.data[s.writer.done := Current(s)], writer := Marked(s.writer.done + 1))
    case Publish => s.(steps := s.steps + 1, writer := Resting)
    case Load => s.(reader := Trying(0))
    case LoadCounter =>
      if Counter(s) % 2 == 1 then s.(reader := Retry(s.reader.tries))
      else s.(reader := Copying(s.reader.tries, Counter(s), s.steps, []))
    case CopyWord =>
      var Copying(tries, s1, since, out) := s.reader;
      s.(reader := Copying(tries, s1, since, out + [s.data[|out|]]))
    case Check =>
      if Counter(s) == s.reader.s1 then s.(reader := Loaded(s.reader.since, s.steps, s.reader.out))
      else s.(reader := Retry(s.reader.tries))
  }

  function Start(words: nat): State { State(seq(words, _ => 0), 0, Resting, Waiting) }

  // ---- the invariant -----------------------------------------------------------------------------

  /** All words are of one store. */
  predicate Whole(out: seq<nat>, store: nat) { forall i :: 0 <= i < |out| ==> out[i] == store }

  /** How many stores have reached word i. */
  function Reached(s: State, i: nat): nat {
    if s.writer.Marked? && i < s.writer.done then (s.steps + 1) / 2 else s.steps / 2
  }

  predicate WriterInv(s: State) {
    && s.steps % 2 == (if s.writer.Resting? then 0 else 1) && (s.writer.Marked? ==> s.writer.done <= |s.data|)
    && forall i :: 0 <= i < |s.data| ==> s.data[i] == Reached(s, i)
  }

  predicate ReaderInv(s: State) {
    match s.reader
    case Copying(_, s1, since, out) =>
      && since <= s.steps && since % 2 == 0 && s1 == since % WRAP && |out| <= |s.data|
      && (s.steps == since ==> Whole(out, since / 2))
    case Loaded(since, until, out) =>
      && since <= until <= s.steps && since % 2 == 0 && until % WRAP == since % WRAP && |out| == |s.data|
      && (until == since ==> Whole(out, since / 2))
    case _ => true
  }

  predicate Inv(s: State) { WriterInv(s) && ReaderInv(s) }

  /** The counter's low bit is the writer's, for WRAP is even. */
  lemma ParityOfCounter(n: nat)
    ensures n % WRAP % 2 == n % 2
  {
    assert n == WRAP * (n / WRAP) + n % WRAP;
  }

  lemma WriterStepKeeps(s: State, a: Action)
    requires Inv(s) && Enabled(s, a) && (a.Mark? || a.WriteWord? || a.Publish?)
    ensures Inv(Next(s, a))
  {
  }

  lemma ReaderStepKeeps(s: State, a: Action)
    requires Inv(s) && Enabled(s, a) && (a.Load? || a.LoadCounter? || a.CopyWord? || a.Check?)
    ensures Inv(Next(s, a))
  {
    ParityOfCounter(s.steps);
  }

  predicate Run(states: seq<State>, actions: seq<Action>) {
    && |states| == |actions| + 1 && states[0] == Start(|states[0].data|)
    && forall k :: 0 <= k < |actions| ==> Enabled(states[k], actions[k]) && states[k + 1] == Next(states[k], actions[k])
  }

  lemma {:induction false} InvAlways(states: seq<State>, actions: seq<Action>, k: nat)
    requires Run(states, actions) && k <= |actions|
    ensures Inv(states[k])
  {
    if k > 0 {
      InvAlways(states, actions, k - 1);
      var s, a := states[k - 1], actions[k - 1];
      assert Enabled(s, a) && states[k] == Next(s, a);
      if a.Mark? || a.WriteWord? || a.Publish? { WriterStepKeeps(s, a); } else { ReaderStepKeeps(s, a); }
    }
  }

  lemma SameRemainder(a: nat, b: nat)
    requires a <= b && a % WRAP == b % WRAP
    ensures b == a || b >= a + WRAP
  {
    assert a == WRAP * (a / WRAP) + a % WRAP && b == WRAP * (b / WRAP) + b % WRAP;
  }

  /** A load that returned true has one whole stored value, the one current throughout its
    * attempt, unless the writer's counter went all the way round meanwhile: 2^31 stores in
    * one attempt. */
  lemma LoadIsWhole(states: seq<State>, actions: seq<Action>, k: nat)
    requires Run(states, actions) && k <= |actions| && states[k].reader.Loaded?
    ensures var r := states[k].reader;
            && |r.out| == |states[k].data|
            && (r.until < r.since + WRAP ==> r.until == r.since && Whole(r.out, r.since / 2))
  {
    InvAlways(states, actions, k);
    SameRemainder(states[k].reader.since, states[k].reader.until);
  }

  // ---- which loads are whole ---------------------------------------------------------------------

  /** The try that begins with the counter load at a is still copying at each point up to m. */
  predicate Copies(states: seq<State>, actions: seq<Action>, a: nat, m: nat)
    requires |states| == |actions| + 1
  {
    a < m <= |actions| && actions[a].LoadCounter? && forall j :: a < j <= m ==> states[j].reader.Copying?
  }

  /** No store of the attempt had reached a word when the reader copied it. */
  predicate InTime(states: seq<State>, actions: seq<Action>, a: nat, m: nat)
    requires |states| == |actions| + 1 && Copies(states, actions, a, m)
  {
    forall j :: a < j < m && actions[j].CopyWord? ==>
      Reached(states[j], |states[j].reader.out|) == states[a].steps / 2
  }

  lemma {:induction false} CopiesAre(states: seq<State>, actions: seq<Action>, a: nat, m: nat)
    requires Run(states, actions) && Copies(states, actions, a, m)
    ensures states[m].reader.since == states[a].steps
    ensures Whole(states[m].reader.out, states[a].steps / 2) <==> InTime(states, actions, a, m)
  {
    hide Inv, Next, Reached;
    InvAlways(states, actions, m - 1);
    if a < m - 1 {
      CopiesAre(states, actions, a, m - 1);
      CopiesOn(states[m - 1], actions[m - 1], states[m], states[a].steps / 2);
      InTimeFront(states, actions, a, m);
    } else {
      TryBegins(states[a], actions[a], states[m]);
    }
  }

  lemma TryBegins(s: State, a: Action, n: State)
    requires Enabled(s, a) && n == Next(s, a) && a.LoadCounter? && n.reader.Copying?
    ensures n.reader.since == s.steps && n.reader.out == []
  {
  }

  lemma CopiesOn(s: State, a: Action, n: State, store: nat)
    requires Inv(s) && Enabled(s, a) && n == Next(s, a) && s.reader.Copying? && n.reader.Copying?
    ensures n.reader.since == s.reader.since
    ensures Whole(n.reader.out, store) <==>
            Whole(s.reader.out, store) && (a.CopyWord? ==> Reached(s, |s.reader.out|) == store)
  {
    if a.CopyWord? { OneMore(s, store); }
  }

  /** A word is copied as the last store to reach it left it. */
  lemma OneMore(s: State, store: nat)
    requires Inv(s) && Enabled(s, CopyWord)
    ensures Whole(Next(s, CopyWord).reader.out, store) <==>
            Whole(s.reader.out, store) && Reached(s, |s.reader.out|) == store
  {
    var out := s.reader.out;
    var more := Next(s, CopyWord).reader.out;
    assert more == out + [s.data[|out|]] && more[|out|] == Reached(s, |out|);
    assert forall i :: 0 <= i < |out| ==> more[i] == out[i];
  }

  lemma InTimeFront(states: seq<State>, actions: seq<Action>, a: nat, m: nat)
    requires |states| == |actions| + 1 && Copies(states, actions, a, m) && a < m - 1
    ensures InTime(states, actions, a, m) <==>
            && InTime(states, actions, a, m - 1)
            && (actions[m - 1].CopyWord? ==>
                  Reached(states[m - 1], |states[m - 1].reader.out|) == states[a].steps / 2)
  {
  }

  /** A load whose last try begins at a returns the value current at that moment, whole, if
    * and only if the reader kept ahead of the writer at every word. */
  lemma LoadIsWholeIff(states: seq<State>, actions: seq<Action>, a: nat, k: nat)
    requires Run(states, actions) && Copies(states, actions, a, k) && k < |actions|
    requires actions[k].Check? && states[k + 1].reader.Loaded?
    ensures states[k + 1].reader.since == states[a].steps
    ensures Whole(states[k + 1].reader.out, states[a].steps / 2) <==> InTime(states, actions, a, k)
  {
    CopiesAre(states, actions, a, k);
    assert states[k + 1] == Next(states[k], actions[k]);
  }

  // ---- and with enough stores it can be torn --------------------------------------------------------

  lemma Extend(states: seq<State>, actions: seq<Action>, a: Action) returns (more: seq<State>, acts: seq<Action>)
    requires Run(states, actions) && Enabled(states[|actions|], a)
    ensures Run(more, acts) && acts == actions + [a]
    ensures more[0] == states[0] && more[|acts|] == Next(states[|actions|], a)
  {
    more, acts := states + [Next(states[|actions|], a)], actions + [a];
  }

  /** One whole store() of a two-word value. */
  lemma StoreOnce(states: seq<State>, actions: seq<Action>) returns (more: seq<State>, acts: seq<Action>)
    requires Run(states, actions) && |states[|actions|].data| == 2 && states[|actions|].writer.Resting?
    requires states[|actions|].steps % 2 == 0
    ensures Run(more, acts) && more[0] == states[0]
    ensures var s := states[|actions|];
            more[|acts|] == s.(data := [s.steps / 2 + 1, s.steps / 2 + 1], steps := s.steps + 2)
  {
    more, acts := Extend(states, actions, Mark);
    assert Current(more[|acts|]) == states[|actions|].steps / 2 + 1;
    more, acts := Extend(more, acts, WriteWord);
    more, acts := Extend(more, acts, WriteWord);
    more, acts := Extend(more, acts, Publish);
  }

  /** n more of them. */
  lemma {:induction false} StoreTimes(states: seq<State>, actions: seq<Action>, n: nat)
    returns (more: seq<State>, acts: seq<Action>)
    requires Run(states, actions) && |states[|actions|].data| == 2 && states[|actions|].writer.Resting?
    requires states[|actions|].steps % 2 == 0
    ensures Run(more, acts) && more[0] == states[0]
    ensures var s, v := states[|actions|], states[|actions|].steps / 2 + n;
            more[|acts|] == s.(data := if n == 0 then s.data else [v, v], steps := s.steps + 2 * n)
    decreases n
  {
    more, acts := states, actions;
    if n > 0 {
      more, acts := StoreOnce(states, actions);
      more, acts := StoreTimes(more, acts, n - 1);
    }
  }

  /** Any multiple of 2^31 stores between the two words' copies: a run whose load returns true
    * with a word of each. */
  lemma TornAfterWrap(laps: nat) returns (states: seq<State>, actions: seq<Action>)
    requires laps > 0
    ensures Run(states, actions) && states[0] == Start(2)
    ensures states[|actions|].reader == Loaded(0, laps * WRAP, [0, laps * (WRAP / 2)])
  {
    states, actions := [Start(2)], [];
    states, actions := Extend(states, actions, Load);
    states, actions := Extend(states, actions, LoadCounter);
    states, actions := Extend(states, actions, CopyWord);
    states, actions := StoreTimes(states, actions, laps * (WRAP / 2));
    assert states[|actions|].steps == laps * WRAP;
    states, actions := Extend(states, actions, CopyWord);
    assert states[|actions|].reader.out == [0, laps * (WRAP / 2)];
    assert Counter(states[|actions|]) == 0;
    states, actions := Extend(states, actions, Check);
  }

  // ---- the code's two methods -------------------------------------------------------------------

  /** Called with no store in between, as the RT thread alone or a quiet reader sees it. */
  class Lock<T> {
    var seq_: nat
    var data: T

    constructor (initial: T)
      ensures seq_ == 0 && data == initial
    {
      seq_, data := 0, initial;
    }

    method Store(v: T)
      requires seq_ < WRAP && seq_ % 2 == 0
      modifies this
      ensures data == v && seq_ == (old(seq_) + 2) % WRAP && seq_ % 2 == 0
    {
      var s := seq_;
      seq_ := (s + 1) % WRAP;
      data := v;
      seq_ := (s + 2) % WRAP;
    }

    /** `seen` is what each of the reader's counter loads returns, two a try. */
    method Load(seen: nat -> (nat, nat)) returns (v: Option<T>, tries: nat)
      ensures tries <= TRIES
      ensures v.Some? <==> exists i :: 0 <= i < TRIES && Stable(seen(i))
      ensures v.Some? ==> v.value == data
      ensures v.Some? ==> tries < TRIES && Stable(seen(tries)) && forall i :: 0 <= i < tries ==> !Stable(seen(i))
    {
      v, tries := None, 0;
      while tries < TRIES
        invariant tries <= TRIES && v.None?
        invariant forall i :: 0 <= i < tries ==> !Stable(seen(i))
      {
        var (s1, s2) := seen(tries);
        if s1 % 2 == 0 {
          var out := data;
          if s2 == s1 { return Some(out), tries; }
        }
        tries := tries + 1;
      }
    }
  }

  /** A try whose two counter loads are even and equal. */
  predicate Stable(loads: (nat, nat)) { loads.0 % 2 == 0 && loads.1 == loads.0 }
}
