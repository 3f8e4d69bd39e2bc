/** The phase table and early-message buffers of client/tss/src/ecdsa.rs. */
module Ecdsa {
  import opened FileNames

  datatype Kind = Keygen | Reshare | Sign | SignOnline

  /** The sender's party index and the message bytes. */
  type Message = (string, string)
  type Slot = (Kind, SessionId)

  /** A phase is known by the messages it has been given since it was created.
      The protocol library is known by which message it accepts in which phase. */
  type Phase = seq<Message>
  type Library = set<(Kind, Phase, Message)>

  datatype State = State(phases: map<Slot, Phase>, buffers: map<Slot, seq<Message>>)

  const EMPTY := State(map[], map[])

  function Buffer(st: State, slot: Slot): seq<Message> {
    if slot in st.buffers then st.buffers[slot] else []
  }

  // ---------------------------------------------------------------- operations

  function Create(st: State, slot: Slot): State {
    st.(phases := st.phases[slot := []])
  }

  /** Hands a message to its phase, or keeps it for later when there is none yet.
      Early reshare messages are not kept. The flag tells success. */
  function Handle(lib: Library, st: State, slot: Slot, m: Message): (State, bool) {
    if slot in st.phases then
      (st.(phases := st.phases[slot := st.phases[slot] + [m]]), (slot.0, st.phases[slot], m) in lib)
    else if slot.0 == Reshare then (st, false)
    else (st.(buffers := st.buffers[slot := Buffer(st, slot) + [m]]), false)
  }

  /** What a pass over the buffer does to the phase; it stops at the first
      message that the library refuses. */
  function Deliver(lib: Library, k: Kind, phase: Phase, messages: seq<Message>): (Phase, bool)
    decreases |messages|
  {
    if messages == [] then (phase, true)
    else if (k, phase, messages[0]) in lib then Deliver(lib, k, phase + [messages[0]], messages[1..])
    else (phase + [messages[0]], false)
  }

  /** One pass over a copy of the buffer, which is dropped only if every message
      in it was accepted. Without a phase the first message is refused and, being
      early once more, buffered once more. */
  function Replay(lib: Library, st: State, slot: Slot): (State, bool) {
    if slot !in st.buffers then (st, true)
    else if slot in st.phases then
      var d := Deliver(lib, slot.0, st.phases[slot], st.buffers[slot]);
      (State(st.phases[slot := d.0], if d.1 then st.buffers - {slot} else st.buffers), d.1)
    else if st.buffers[slot] == [] then (st.(buffers := st.buffers - {slot}), true)
    else (Handle(lib, st, slot, st.buffers[slot][0]).0, false)
  }

  class Manager {
    var phases: map<Slot, Phase>
    var buffers: map<Slot, seq<Message>>

    function View(): State
      reads this
    {
      State(phases, buffers)
    }

    constructor ()
      ensures View() == EMPTY
    {
      phases, buffers := map[], map[];
    }

    /** Returns whether the library could create the phase. */
    method AddPhase(slot: Slot, created: bool) returns (ok: bool)
      modifies this`phases
      ensures ok == created && View() == if created then Create(old(View()), slot) else old(View())
    {
      ok := created;
      if created {
        phases := phases[slot := []];
      }
    }

    method HandleMessage(lib: Library, slot: Slot, m: Message) returns (ok: bool)
      modifies this
      ensures (View(), ok) == Handle(lib, old(View()), slot, m)
    {
      if slot in phases {
        ok := (slot.0, phases[slot], m) in lib;
        phases := phases[slot := phases[slot] + [m]];
        return;
      }
      if slot.0 != Reshare {
        buffers := buffers[slot := (if slot in buffers then buffers[slot] else []) + [m]];
      }
      ok := false;
    }

    method HandleBuffer(lib: Library, slot: Slot) returns (ok: bool)
      modifies this
      ensures (View(), ok) == Replay(lib, old(View()), slot)
    {
      if slot !in buffers {
        return true;
      }
      var messages := buffers[slot];
      for i := 0 to |messages|
        invariant buffers == old(buffers)
        invariant i > 0 ==> slot in old(phases)
        invariant if slot in old(phases)
                  then slot in phases && phases == old(phases)[slot := phases[slot]] &&
                       Deliver(lib, slot.0, old(phases)[slot], messages) == Deliver(lib, slot.0, phases[slot], messages[i..])
                  else phases == old(phases)
      {
        assert messages[i..][0] == messages[i] && messages[i..][1..] == messages[i + 1..];
        ok := HandleMessage(lib, slot, messages[i]);
        if !ok {
          assert slot in old(phases) ==> phases == old(phases)[slot := phases[slot]];
          return;
        }
      }
      buffers := buffers - {slot};
      ok := true;
    }
  }

  // ---------------------------------------------------------------- what a pass guarantees

  /** A pass that succeeds has given the phase the whole buffer, in order, each
      message accepted after the ones before it. One that fails has given it a
      non-empty prefix, of which only the last message was refused. */
  lemma {:induction false} DeliverIsInOrder(lib: Library, k: Kind, phase: Phase, messages: seq<Message>) returns (n: nat)
    ensures n <= |messages| && Deliver(lib, k, phase, messages).0 == phase + messages[..n]
    ensures forall i :: 0 <= i < n ==> ((k, phase + messages[..i], messages[i]) in lib <==> Deliver(lib, k, phase, messages).1 || i < n - 1)
    ensures if Deliver(lib, k, phase, messages).1 then n == |messages| else n > 0
    decreases |messages|
  {
    if messages == [] {
      n := 0;
      assert phase + messages[..0] == phase;
    } else if (k, phase, messages[0]) !in lib {
      n := 1;
      assert messages[..1] == [messages[0]] && phase + messages[..0] == phase;
    } else {
      var rest := messages[1..];
      n := DeliverIsInOrder(lib, k, phase + [messages[0]], rest);
      assert phase + messages[..n + 1] == phase + [messages[0]] + rest[..n];
      forall i | 0 <= i < n + 1
        ensures (k, phase + messages[..i], messages[i]) in lib <==> Deliver(lib, k, phase, messages).1 || i < n
      {
        if i == 0 {
          assert phase + messages[..0] == phase;
        } else {
          assert phase + messages[..i] == phase + [messages[0]] + rest[..i - 1];
        }
      }
      n := n + 1;
    }
  }

  /** What a new message finds: a phase gets the buffered messages first, in order
      and up to the first that it refuses, and the new one after them; the buffer
      empties if and only if none was refused. Without a phase the new message waits
      behind the others, of which the first is repeated. */
  lemma ReplayedFirst(lib: Library, st: State, slot: Slot, m: Message) returns (n: nat)
    ensures n <= |Buffer(st, slot)|
    ensures var st', passes := Handle(lib, Replay(lib, st, slot).0, slot, m).0, Replay(lib, st, slot).1;
            if slot in st.phases then
              && slot in st'.phases && st'.phases[slot] == st.phases[slot] + Buffer(st, slot)[..n] + [m]
              && (passes ==> n == |Buffer(st, slot)| && Buffer(st', slot) == [])
              && (!passes ==>
                    && n > 0 && Buffer(st', slot) == Buffer(st, slot)
                    && (slot.0, st.phases[slot] + Buffer(st, slot)[..n - 1], Buffer(st, slot)[n - 1]) !in lib)
            else
              && slot !in st'.phases
              && (slot.0 != Reshare ==> Buffer(st', slot) == Buffer(st, slot) + Buffer(st, slot)[..n] + [m])
              && n == if slot.0 == Reshare || Buffer(st, slot) == [] then 0 else 1
  {
    var b := Buffer(st, slot);
    if slot in st.phases {
      n := 0;
      assert b == [] ==> st.phases[slot] + b[..0] == st.phases[slot];
      if slot in st.buffers {
        n := DeliverIsInOrder(lib, slot.0, st.phases[slot], b);
      }
    } else {
      n := if slot.0 == Reshare || b == [] then 0 else 1;
      assert b != [] ==> b[..1] == [b[0]];
    }
  }

  /** The verdict on a message is the phase's, and early messages have none. */
  lemma HandleSucceedsIff(lib: Library, st: State, slot: Slot, m: Message)
    ensures Handle(lib, st, slot, m).1 <==> slot in st.phases && (slot.0, st.phases[slot], m) in lib
  {
  }

  // ---------------------------------------------------------------- runs

  datatype Event = ArriveEvent(slot: Slot, message: Message) | ReplayEvent(at: Slot) | CreateEvent(of: Slot)

  /** A run watched at one slot: the messages that came before their phase, and
      those that successful passes have handed over. */
  datatype Watched = Watched(st: State, early: seq<Message>, passed: seq<Message>)

  function Step(lib: Library, w: Watched, slot: Slot, e: Event): Watched {
    match e
    case ArriveEvent(s, m) =>
      Watched(Handle(lib, w.st, s, m).0,
              if s == slot && s !in w.st.phases then w.early + [m] else w.early,
              w.passed)
    case ReplayEvent(s) =>
      Watched(Replay(lib, w.st, s).0, w.early,
              if s == slot && Replay(lib, w.st, s).1 then w.passed + Buffer(w.st, s) else w.passed)
    case CreateEvent(s) => w.(st := Create(w.st, s))
  }

  /** Every event comes with the library's answers at that moment. */
  function Watch(slot: Slot, events: seq<(Library, Event)>): Watched {
    if events == [] then Watched(EMPTY, [], [])
    else
      var (lib, e) := events[|events| - 1];
      Step(lib, Watch(slot, events[..|events| - 1]), slot, e)
  }

  /** First occurrences, in order. */
  function Distinct(s: seq<Message>): seq<Message> {
    if s == [] then []
    else
      var d, last := Distinct(s[..|s| - 1]), s[|s| - 1];
      if last in d then d else d + [last]
  }

  lemma {:induction false} DistinctKeepsElements(s: seq<Message>, m: Message)
    ensures m in Distinct(s) <==> m in s
  {
    if s != [] {
      DistinctKeepsElements(s[..|s| - 1], m);
      assert s == s[..|s| - 1] + [s[|s| - 1]];
      DistinctKeepsElements(s[..|s| - 1], s[|s| - 1]);
    }
  }

  lemma DistinctNext(s: seq<Message>, m: Message)
    ensures Distinct(s + [m]) == if m in Distinct(s) then Distinct(s) else Distinct(s) + [m]
  {
  }

  /** First occurrences of the messages held are exactly those of the early
      arrivals, and what arrived several times is held at least as often. */
  ghost predicate Covers(held: seq<Message>, early: seq<Message>) {
    Distinct(early) == Distinct(held) && multiset(early) <= multiset(held)
  }

  lemma CoversNext(held: seq<Message>, early: seq<Message>, m: Message)
    requires Covers(held, early)
    ensures Covers(held + [m], early + [m])
    ensures m in held ==> Covers(held + [m], early)
  {
    DistinctNext(held, m);
    DistinctNext(early, m);
    DistinctKeepsElements(held, m);
    assert multiset(held + [m]) == multiset(held) + multiset{m};
    assert multiset(early + [m]) == multiset(early) + multiset{m};
  }

  /** Handed over by successful passes or still waiting. */
  function Held(w: Watched, slot: Slot): seq<Message> {
    w.passed + Buffer(w.st, slot)
  }

  /** A step leaves the account as it is, enters one early arrival on both sides,
      or pushes a message again that is held already. */
  lemma StepHeld(lib: Library, w: Watched, slot: Slot, e: Event) returns (m: Message)
    requires slot.0 != Reshare
    ensures var w' := Step(lib, w, slot, e);
            || (w'.early == w.early && Held(w', slot) == Held(w, slot))
            || (w'.early == w.early + [m] && Held(w', slot) == Held(w, slot) + [m])
            || (w'.early == w.early && m in Held(w, slot) && Held(w', slot) == Held(w, slot) + [m])
  {
    var w', b := Step(lib, w, slot, e), Buffer(w.st, slot);
    m := if e.ArriveEvent? then e.message else if b != [] then b[0] else ("", "");
    if e.ArriveEvent? && e.slot == slot && slot !in w.st.phases {
      assert Held(w', slot) == Held(w, slot) + [m];
    } else if e.ReplayEvent? && e.at == slot && slot in w.st.buffers {
      if Replay(lib, w.st, slot).1 {
        assert Held(w', slot) == Held(w, slot);
      } else if slot !in w.st.phases {
        assert Held(w', slot) == Held(w, slot) + [m];
      }
    } else {
      assert Buffer(w'.st, slot) == b;
      assert slot !in w.st.buffers ==> w.passed + b == w.passed;
    }
  }

  /** Every step keeps the account. */
  lemma StepAccounts(lib: Library, w: Watched, slot: Slot, e: Event)
    requires slot.0 != Reshare && Covers(Held(w, slot), w.early)
    ensures Covers(Held(Step(lib, w, slot, e), slot), Step(lib, w, slot, e).early)
  {
    var m := StepHeld(lib, w, slot, e);
    CoversNext(Held(w, slot), w.early, m);
  }

  /** For key generation and both signing phases, in every run, a message that
      came before its phase waits in the buffer until a pass has handed over the
      whole buffer; nothing is invented, no repeated arrival is lost, and first
      occurrences keep their order of arrival, although failed passes push the head message again. */
  lemma {:induction false} EarlyMessagesAreKept(slot: Slot, events: seq<(Library, Event)>, m: Message)
    requires slot.0 != Reshare
    ensures var w := Watch(slot, events);
            && Distinct(w.early) == Distinct(w.passed + Buffer(w.st, slot))
            && multiset(w.early) <= multiset(w.passed + Buffer(w.st, slot))
            && (m in w.early <==> m in w.passed || m in Buffer(w.st, slot))
  {
    if events != [] {
      EarlyMessagesAreKept(slot, events[..|events| - 1], m);
      var (lib, e) := events[|events| - 1];
      StepAccounts(lib, Watch(slot, events[..|events| - 1]), slot, e);
    }
    var w := Watch(slot, events);
    DistinctKeepsElements(w.early, m);
    DistinctKeepsElements(w.passed + Buffer(w.st, slot), m);
  }

  /** Reshare messages are different: nothing is ever buffered for them. */
  lemma {:induction false} ReshareBuffersStayEmpty(slot: Slot, events: seq<(Library, Event)>)
    requires slot.0 == Reshare
    ensures slot !in Watch(slot, events).st.buffers
  {
    if events != [] {
      ReshareBuffersStayEmpty(slot, events[..|events| - 1]);
    }
  }

  /** No operation reaches another slot. */
  lemma SlotsAreIndependent(lib: Library, w: Watched, slot: Slot, e: Event, other: Slot)
    requires other != match e case ArriveEvent(s, _) => s case ReplayEvent(s) => s case CreateEvent(s) => s
    ensures var st' := Step(lib, w, slot, e).st;
            && (other in st'.phases <==> other in w.st.phases) && (other in w.st.phases ==> st'.phases[other] == w.st.phases[other])
            && (other in st'.buffers <==> other in w.st.buffers) && (other in w.st.buffers ==> st'.buffers[other] == w.st.buffers[other])
  {
  }
}
