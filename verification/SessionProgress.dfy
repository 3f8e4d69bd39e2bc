/** What an orderly run achieves: the partner of the safety results. A node that
    gets the packages of all other participants, round after round and in any
    order within a round, ends with a key; a coordinator that gets t commitments
    and then t shares ends with a signature. */
module SessionProgress {
  import opened Prelude
  import opened FileNames
  import opened SessionReplay
  import opened Sessions
  import D = DkgStorage
  import P = PeerMapping
  import E = Ecdsa

  // ---------------------------------------------------------------- deliveries

  /** A gossip message that reaches session s in time. */
  ghost predicate Reaches(st: State, s: SessionId, x: Stimulus) {
    x.event.GossipEvent? && x.event.s == s && s in st.data && !TimedOut(st, s, x.now) && x.depth > 0
  }

  /** The i-th stimulus comes from the participant with identifier ids[i], all
      different. */
  ghost predicate FromEach(st: State, s: SessionId, run: seq<Stimulus>, ids: seq<Identifier>) {
    && |run| == |ids| && NoDup(ids)
    && forall i :: 0 <= i < |run| ==>
         Reaches(st, s, run[i]) && P.IdentifierOfPeer(run[i].orders, st.peers, s, run[i].event.sender) == P.Found(ids[i])
  }

  /** The table that these messages fill. */
  function Collected(run: seq<Stimulus>, ids: seq<Identifier>): Packages
    requires |run| == |ids| && forall i :: 0 <= i < |run| ==> run[i].event.GossipEvent?
  {
    if run == [] then map[]
    else
      var n := |run| - 1;
      Collected(run[..n], ids[..n])[ids[n] := run[n].event.message.bytes]
  }

  /** In other words: exactly the given identifiers, each with its sender's bytes. */
  lemma {:induction false} CollectedAt(run: seq<Stimulus>, ids: seq<Identifier>, i: nat)
    requires |run| == |ids| && NoDup(ids) && (forall j :: 0 <= j < |run| ==> run[j].event.GossipEvent?) && i < |run|
    ensures Collected(run, ids).Keys == Elems(ids)
    ensures ids[i] in Collected(run, ids) && Collected(run, ids)[ids[i]] == run[i].event.message.bytes
  {
    CollectedSize(run, ids);
    if i < |run| - 1 {
      CollectedAt(run[..|run| - 1], ids[..|run| - 1], i);
    }
  }

  lemma {:induction false} CollectedSize(run: seq<Stimulus>, ids: seq<Identifier>)
    requires |run| == |ids| && NoDup(ids) && forall i :: 0 <= i < |run| ==> run[i].event.GossipEvent?
    ensures Collected(run, ids).Keys == Elems(ids) && |Collected(run, ids)| == |ids|
  {
    if run != [] {
      var n := |run| - 1;
      CollectedSize(run[..n], ids[..n]);
      assert ids == ids[..n] + [ids[n]];
    }
    ElemsCount(ids);
    assert |Collected(run, ids)| == |Collected(run, ids).Keys|;
  }

  lemma {:induction false} CollectedParse(run: seq<Stimulus>, ids: seq<Identifier>, parses: set<Bytes>)
    requires |run| == |ids| && forall i :: 0 <= i < |run| ==> run[i].event.GossipEvent? && run[i].event.message.bytes in parses
    ensures forall id :: id in Collected(run, ids) ==> Collected(run, ids)[id] in parses
  {
    if run != [] {
      CollectedParse(run[..|run| - 1], ids[..|run| - 1], parses);
    }
  }

  function WithTable(st: State, shelf: D.Shelf, s: SessionId, m: Packages): State {
    st.(store := st.store.(tables := st.store.tables[(shelf, s) := m]))
  }

  /** The state after some of them: an empty table needs no entry. */
  function Filled(st: State, shelf: D.Shelf, s: SessionId, m: Packages): State {
    if m == map[] then st else WithTable(st, shelf, s, m)
  }

  lemma StoredIsFilled(st: State, shelf: D.Shelf, s: SessionId, m: Packages, id: Identifier, bytes: Bytes, parses: set<Bytes>)
    requires D.Get(st.store, shelf, s) == map[]
    requires bytes in parses && forall k :: k in m ==> m[k] in parses
    ensures Stored(Filled(st, shelf, s, m), shelf, s, id, bytes) == WithTable(st, shelf, s, m[id := bytes])
    ensures m[id := bytes] != map[] && D.Fetch(WithTable(st, shelf, s, m[id := bytes]).store, shelf, s, parses) == Some(m[id := bytes])
  {
    assert D.Get(Filled(st, shelf, s, m).store, shelf, s) == m;
    FetchFilled(st, shelf, s, m[id := bytes], parses);
    assert id in m[id := bytes];
  }

  lemma FetchFilled(st: State, shelf: D.Shelf, s: SessionId, m: Packages, parses: set<Bytes>)
    requires forall k :: k in m ==> m[k] in parses
    ensures D.Fetch(WithTable(st, shelf, s, m).store, shelf, s, parses) == Some(m)
  {
  }

  lemma CollectedLast(run: seq<Stimulus>, ids: seq<Identifier>, parses: set<Bytes>)
    requires run != [] && |run| == |ids| && NoDup(ids)
    requires forall i :: 0 <= i < |run| ==> run[i].event.GossipEvent? && run[i].event.message.bytes in parses
    ensures var k := |run| - 1;
            && (forall id :: id in Collected(run[..k], ids[..k]) ==> Collected(run[..k], ids[..k])[id] in parses)
            && Collected(run, ids) == Collected(run[..k], ids[..k])[ids[k] := run[k].event.message.bytes]
            && |Collected(run, ids)| == |run| && Collected(run, ids) != map[]
  {
    var k := |run| - 1;
    CollectedParse(run[..k], ids[..k], parses);
    CollectedSize(run, ids);
    assert ids[k] in Collected(run, ids);
  }

  /** What the last message of a run adds. */
  lemma CollectedNext(st: State, s: SessionId, run: seq<Stimulus>, ids: seq<Identifier>, parses: set<Bytes>)
    requires run != [] && FromEach(st, s, run, ids) && forall x :: x in run ==> x.event.GossipEvent? && x.event.message.bytes in parses
    ensures var k := |run| - 1;
            && FromEach(st, s, run[..k], ids[..k])
            && (forall id :: id in Collected(run[..k], ids[..k]) ==> Collected(run[..k], ids[..k])[id] in parses)
            && Collected(run, ids) == Collected(run[..k], ids[..k])[ids[k] := run[k].event.message.bytes]
            && |Collected(run, ids)| == |run| && Collected(run, ids) != map[]
  {
    CollectedLast(run, ids, parses);
  }

  // ---------------------------------------------------------------- round 1

  /** Round 1 has begun and no package has come. */
  ghost predicate Collecting(st: State, s: SessionId, t: nat, n: nat) {
    && s in st.data && DkgOf(st, s) == Round1Initiated
    && Secret(st, s, DKGRound1SecretPackage) == Some(D.SecretPackage(t, n))
    && D.Get(st.store, D.Round1, s) == map[]
  }

  /** The session as its creation leaves it. */
  ghost predicate Prepared(st: State, s: SessionId, t: nat, n: nat) {
    Collecting(st, s, t, n) && Quiet(st, s) && D.Get(st.store, D.Round2, s) == map[]
  }

  /** Nothing but round-1 messages is in the buffer. */
  ghost predicate Quiet(st: State, s: SessionId) {
    s in st.buffer && forall e :: e in st.buffer[s] ==> e.1.DkgRound1?
  }

  lemma {:induction false} QuietReplays(c: Crypto, o: P.Orders, st: State, s: SessionId, ms: seq<(PeerId, Message)>, depth: nat)
    requires forall e :: e in ms ==> e.1.DkgRound1?
    ensures ReplayRound2(c, o, st, s, ms, depth) == Returned(st, None)
    decreases |ms|
  {
    if ms != [] {
      QuietReplays(c, o, st, s, ms[1..], depth);
    }
  }

  lemma QuietCompletes(c: Crypto, o: P.Orders, st: State, s: SessionId, depth: nat)
    requires Quiet(st, s) && depth > 0
    ensures VerifyAndComplete(c, o, st, s, depth) == Complete(c, o, st, s)
  {
    assert Touched(st, s) == st by {
      assert st.buffer[s := st.buffer[s]] == st.buffer;
    }
    QuietReplays(c, o, st, s, st.buffer[s], depth - 1);
  }

  lemma {:induction false} QuietFate(f: Formats, st: State, s: SessionId, ms: seq<(PeerId, Message)>)
    requires forall e :: e in ms ==> e.1.DkgRound1?
    ensures Fate(f, st, s, ms) == Ignored
  {
    if ms != [] {
      QuietFate(f, st, s, ms[1..]);
    }
  }

  ghost predicate AreRound1(f: Formats, run: seq<Stimulus>) {
    forall x :: x in run ==>
      x.crypto.formats == f && x.event.GossipEvent? && x.event.message.DkgRound1? && x.event.message.bytes in f.round1Parses
  }

  lemma Round1Handled(c: Crypto, o: P.Orders, st: State, s: SessionId, t: nat, n: nat, m: Packages,
                      bytes: Bytes, sender: PeerId, id: Identifier, depth: nat)
    requires Collecting(st, s, t, n) && (forall k :: k in m ==> m[k] in c.formats.round1Parses)
    requires P.IdentifierOfPeer(o, st.peers, s, sender) == P.Found(id) && bytes in c.formats.round1Parses
    ensures var m' := m[id := bytes];
            var st1 := WithTable(st, D.Round1, s, m');
            HandleRound1(c, o, Filled(st, D.Round1, s, m), s, bytes, sender, depth) ==
              if |m'| < n - 1 then Returned(st1, None)
              else StartRound2(c, o, st1, s, D.SecretPackage(t, n), m', depth)
  {
    StoredIsFilled(st, D.Round1, s, m, id, bytes, c.formats.round1Parses);
  }

  lemma Round1Step(st: State, s: SessionId, t: nat, n: nat, m: Packages, x: Stimulus, id: Identifier)
    requires Collecting(st, s, t, n) && (forall k :: k in m ==> m[k] in x.crypto.formats.round1Parses)
    requires Reaches(st, s, x) && P.IdentifierOfPeer(x.orders, st.peers, s, x.event.sender) == P.Found(id)
    requires x.event.message.DkgRound1? && x.event.message.bytes in x.crypto.formats.round1Parses
    ensures var m' := m[id := x.event.message.bytes];
            var st1 := WithTable(st, D.Round1, s, m');
            Step(Filled(st, D.Round1, s, m), x) ==
              if |m'| < n - 1 then Returned(st1, None)
              else StartRound2(x.crypto, x.orders, st1, s, D.SecretPackage(t, n), m', x.depth)
  {
    Round1Handled(x.crypto, x.orders, st, s, t, n, m, x.event.message.bytes, x.event.sender, id, x.depth);
  }

  lemma EarlyRound1(st: State, s: SessionId, t: nat, n: nat, m: Packages, x: Stimulus, id: Identifier)
    requires Collecting(st, s, t, n) && (forall k :: k in m ==> m[k] in x.crypto.formats.round1Parses)
    requires Reaches(st, s, x) && P.IdentifierOfPeer(x.orders, st.peers, s, x.event.sender) == P.Found(id)
    requires x.event.message.DkgRound1? && x.event.message.bytes in x.crypto.formats.round1Parses && |m[id := x.event.message.bytes]| < n - 1
    ensures Step(Filled(st, D.Round1, s, m), x) == Returned(Filled(st, D.Round1, s, m[id := x.event.message.bytes]), None)
  {
    Round1Step(st, s, t, n, m, x, id);
    assert id in m[id := x.event.message.bytes];
  }

  /** Fewer than n - 1 packages only fill the table. */
  lemma {:induction false} Round1Fills(f: Formats, st: State, s: SessionId, t: nat, n: nat, run: seq<Stimulus>, ids: seq<Identifier>)
    requires Collecting(st, s, t, n) && FromEach(st, s, run, ids) && AreRound1(f, run) && |run| < n - 1
    ensures Run(st, run) == Some(Filled(st, D.Round1, s, Collected(run, ids)))
  {
    if run != [] {
      var k := |run| - 1;
      var m := Collected(run[..k], ids[..k]);
      CollectedNext(st, s, run, ids, f.round1Parses);
      Round1Fills(f, st, s, t, n, run[..k], ids[..k]);
      EarlyRound1(st, s, t, n, m, run[k], ids[k]);
      RunLast(st, run, Filled(st, D.Round1, s, m), Filled(st, D.Round1, s, Collected(run, ids)));
    }
  }

  /** The state in which round 2 starts. */
  function InSecondRound(st: State, s: SessionId, t: nat, n: nat, round1: Packages): State {
    SetDkg(StoredData(WithTable(st, D.Round1, s, round1), s, DKGRound2SecretPackage, D.SecretPackage(t, n)), s, Round2Initiated)
  }

  lemma Round2Starts(c: Crypto, o: P.Orders, st: State, s: SessionId, t: nat, n: nat, m: Packages, depth: nat)
    requires Prepared(st, s, t, n) && n >= 2 && depth > 0 && (forall k :: k in m ==> m[k] in c.formats.round1Parses)
    requires (D.SecretPackage(t, n), m) in c.part2
    ensures StartRound2(c, o, WithTable(st, D.Round1, s, m), s, D.SecretPackage(t, n), m, depth) ==
              Returned(InSecondRound(st, s, t, n, m), None)
  {
    var st2 := InSecondRound(st, s, t, n, m);
    QuietCompletes(c, o, st2, s, depth);
    assert D.Get(st2.store, D.Round1, s) == m && D.Get(st2.store, D.Round2, s) == map[];
    assert Complete(c, o, st2, s) == Returned(st2, None);
  }

  /** The (n - 1)-th package starts round 2. */
  lemma Round1Completes(f: Formats, st: State, s: SessionId, t: nat, n: nat, run: seq<Stimulus>, ids: seq<Identifier>)
    requires Prepared(st, s, t, n) && FromEach(st, s, run, ids) && AreRound1(f, run) && |run| == n - 1 >= 1
    requires (D.SecretPackage(t, n), Collected(run, ids)) in run[|run| - 1].crypto.part2
    ensures Run(st, run) == Some(InSecondRound(st, s, t, n, Collected(run, ids)))
  {
    var k := |run| - 1;
    var m := Collected(run[..k], ids[..k]);
    CollectedNext(st, s, run, ids, f.round1Parses);
    CollectedParse(run, ids, f.round1Parses);
    Round1Fills(f, st, s, t, n, run[..k], ids[..k]);
    Round1Step(st, s, t, n, m, run[k], ids[k]);
    RunNext(st, run, Filled(st, D.Round1, s, m));
    Round2Starts(run[k].crypto, run[k].orders, st, s, t, n, Collected(run, ids), run[k].depth);
  }

  /** If a usable round-2 package comes before the round-1 packages, the last of
      those never returns: the session that would have finished is stuck. */
  lemma EarlyRound2Stops(f: Formats, st: State, s: SessionId, t: nat, n: nat, x: Stimulus, run: seq<Stimulus>, ids: seq<Identifier>)
    requires Prepared(st, s, t, n) && Reaches(st, s, x) && x.crypto.formats == f
    requires FateOf(f, st, s, (x.event.sender, x.event.message)) == Reenters
    requires FromEach(st, s, run, ids) && AreRound1(f, run) && |run| == n - 1 >= 1 && run[n - 2].orders.Valid()
    requires (D.SecretPackage(t, n), Collected(run, ids)) in run[n - 2].crypto.part2
    ensures Run(st, [x] + run) == None
  {
    var st1 := Buffered(st, s, x.event.sender, x.event.message);
    QuietFate(f, st, s, st.buffer[s]);
    EarlyRound2IsInert(st, s, x);
    BlockedRound1Stops(f, st1, s, t, n, run, ids);
    RunSplit(st, [x], run);
  }

  lemma BlockedRound1Stops(f: Formats, st: State, s: SessionId, t: nat, n: nat, run: seq<Stimulus>, ids: seq<Identifier>)
    requires Collecting(st, s, t, n) && Blocked(f, st, s)
    requires FromEach(st, s, run, ids) && AreRound1(f, run) && |run| == n - 1 >= 1 && run[n - 2].orders.Valid()
    requires (D.SecretPackage(t, n), Collected(run, ids)) in run[n - 2].crypto.part2
    ensures Run(st, run) == None
  {
    var k := |run| - 1;
    var m, st1 := Collected(run[..k], ids[..k]), WithTable(st, D.Round1, s, Collected(run, ids));
    CollectedNext(st, s, run, ids, f.round1Parses);
    Round1Fills(f, st, s, t, n, run[..k], ids[..k]);
    Round1Step(st, s, t, n, m, run[k], ids[k]);
    FateStays(f, st, st1, s, Waiting(st, s), Waiting(st, s));
    BlockedStart(run[k].crypto, run[k].orders, st1, s, D.SecretPackage(t, n), Collected(run, ids), run[k].depth);
    RunNext(st, run, Filled(st, D.Round1, s, m));
  }

  // ---------------------------------------------------------------- round 2

  ghost predicate SecondRound(f: Formats, st: State, s: SessionId, t: nat, n: nat) {
    && s in st.data && DkgOf(st, s) == Round2Initiated && Quiet(st, s)
    && Secret(st, s, DKGRound2SecretPackage) == Some(D.SecretPackage(t, n))
    && D.Fetch(st.store, D.Round1, s, f.round1Parses).Some?
    && D.Get(st.store, D.Round2, s) == map[]
  }

  ghost predicate IsRound2(f: Formats, st: State, x: Stimulus) {
    && x.crypto.formats == f && x.event.GossipEvent? && x.event.message.DkgRound2?
    && x.event.message.bytes in f.round2Parses && x.event.message.recipient == st.localPeer
  }

  ghost predicate AreRound2(f: Formats, st: State, run: seq<Stimulus>) {
    forall x :: x in run ==> IsRound2(f, st, x)
  }

  lemma Round2Step(st: State, s: SessionId, t: nat, n: nat, m: Packages, x: Stimulus, id: Identifier)
    requires SecondRound(x.crypto.formats, st, s, t, n) && (forall k :: k in m ==> m[k] in x.crypto.formats.round2Parses)
    requires Reaches(st, s, x) && P.IdentifierOfPeer(x.orders, st.peers, s, x.event.sender) == P.Found(id)
    requires IsRound2(x.crypto.formats, st, x)
    ensures var st1 := WithTable(st, D.Round2, s, m[id := x.event.message.bytes]);
            var r := Complete(x.crypto, x.orders, st1, s);
            Step(Filled(st, D.Round2, s, m), x) == if r.Returned? then Returned(r.st, None) else r
  {
    var st1 := WithTable(st, D.Round2, s, m[id := x.event.message.bytes]);
    StoredIsFilled(st, D.Round2, s, m, id, x.event.message.bytes, x.crypto.formats.round2Parses);
    QuietCompletes(x.crypto, x.orders, st1, s, x.depth);
  }

  lemma Round2Fetches(c: Crypto, st: State, s: SessionId, t: nat, n: nat, m: Packages)
    requires SecondRound(c.formats, st, s, t, n) && (forall k :: k in m ==> m[k] in c.formats.round2Parses)
    ensures var st1 := WithTable(st, D.Round2, s, m);
            && D.Fetch(st1.store, D.Round1, s, c.formats.round1Parses) == D.Fetch(st.store, D.Round1, s, c.formats.round1Parses)
            && D.Fetch(st1.store, D.Round2, s, c.formats.round2Parses) == Some(m)
            && Secret(st1, s, DKGRound2SecretPackage) == Some(D.SecretPackage(t, n))
  {
  }

  lemma EarlyRound2(st: State, s: SessionId, t: nat, n: nat, m: Packages, x: Stimulus, id: Identifier)
    requires SecondRound(x.crypto.formats, st, s, t, n) && (forall k :: k in m ==> m[k] in x.crypto.formats.round2Parses)
    requires Reaches(st, s, x) && P.IdentifierOfPeer(x.orders, st.peers, s, x.event.sender) == P.Found(id)
    requires IsRound2(x.crypto.formats, st, x) && |m[id := x.event.message.bytes]| < n - 1
    ensures Step(Filled(st, D.Round2, s, m), x) == Returned(Filled(st, D.Round2, s, m[id := x.event.message.bytes]), None)
  {
    var m' := m[id := x.event.message.bytes];
    assert id in m';
    Round2Step(st, s, t, n, m, x, id);
    Round2Fetches(x.crypto, st, s, t, n, m');
    assert Complete(x.crypto, x.orders, WithTable(st, D.Round2, s, m'), s) == Returned(WithTable(st, D.Round2, s, m'), None);
  }

  /** Where the first k round-2 packages have brought the session. */
  function FilledAt(st: State, shelf: D.Shelf, s: SessionId, run: seq<Stimulus>, ids: seq<Identifier>, k: nat): State
    requires |run| == |ids| && k <= |run| && forall i :: 0 <= i < |run| ==> run[i].event.GossipEvent?
  {
    Filled(st, shelf, s, Collected(run[..k], ids[..k]))
  }

  lemma Round2Goes(f: Formats, st: State, s: SessionId, t: nat, n: nat, run: seq<Stimulus>, ids: seq<Identifier>, k: nat)
    requires SecondRound(f, st, s, t, n) && FromEach(st, s, run, ids) && AreRound2(f, st, run) && k < |run| && k + 1 < n - 1
    ensures Goes(FilledAt(st, D.Round2, s, run, ids, k), run[k], FilledAt(st, D.Round2, s, run, ids, k + 1))
  {
    assert IsRound2(f, st, run[k]);
    assert run[..k + 1][..k] == run[..k] && ids[..k + 1][..k] == ids[..k];
    forall i | 0 <= i < k + 1 ensures run[i].event.message.bytes in f.round2Parses {
      assert IsRound2(f, st, run[i]);
    }
    CollectedLast(run[..k + 1], ids[..k + 1], f.round2Parses);
    EarlyRound2(st, s, t, n, Collected(run[..k], ids[..k]), run[k], ids[k]);
  }

  /** Fewer than n - 1 of them only fill the table. */
  lemma Round2Fills(f: Formats, st: State, s: SessionId, t: nat, n: nat, run: seq<Stimulus>, ids: seq<Identifier>)
    requires SecondRound(f, st, s, t, n) && FromEach(st, s, run, ids) && AreRound2(f, st, run) && |run| < n - 1
    ensures Run(st, run) == Some(Filled(st, D.Round2, s, Collected(run, ids)))
  {
    var states := seq(|run| + 1, i requires 0 <= i <= |run| => FilledAt(st, D.Round2, s, run, ids, i));
    forall i | 0 <= i < |run| ensures Goes(states[i], run[i], states[i + 1]) {
      Round2Goes(f, st, s, t, n, run, ids, i);
    }
    assert run[..0] == [] && run[..|run|] == run && ids[..|run|] == ids;
    TraceRuns(states, run);
  }

  /** Enough packages: the library decides. */
  lemma CompleteDecides(c: Crypto, o: P.Orders, st: State, s: SessionId, t: nat, n: nat, round1: Packages, round2: Packages, me: Identifier)
    requires Secret(st, s, DKGRound2SecretPackage) == Some(D.SecretPackage(t, n)) && |round2| >= n - 1
    requires D.Fetch(st.store, D.Round1, s, c.formats.round1Parses) == Some(round1)
    requires D.Fetch(st.store, D.Round2, s, c.formats.round2Parses) == Some(round2)
    requires P.IdentifierOfAccount(o, st.peers, s, st.validatorKey) == P.Found(me)
    ensures Complete(c, o, st, s) == Returned(
              if (D.SecretPackage(t, n), round1, round2) in c.part3
              then SetDkg(WithKeys(st, s, me, t), s, KeyGenerated)
              else SetDkg(st, s, DkgFailed), None)
  {
  }

  /** The library's decision on the packages of round 2. */
  function Decided(c: Crypto, st: State, s: SessionId, t: nat, n: nat, round2: Packages, me: Identifier): State {
    var st1 := WithTable(st, D.Round2, s, round2);
    if (D.SecretPackage(t, n), D.Get(st.store, D.Round1, s), round2) in c.part3
    then SetDkg(WithKeys(st1, s, me, t), s, KeyGenerated)
    else SetDkg(st1, s, DkgFailed)
  }

  lemma LastRound2(st: State, s: SessionId, t: nat, n: nat, m: Packages, x: Stimulus, id: Identifier, me: Identifier)
    requires SecondRound(x.crypto.formats, st, s, t, n) && (forall k :: k in m ==> m[k] in x.crypto.formats.round2Parses)
    requires Reaches(st, s, x) && P.IdentifierOfPeer(x.orders, st.peers, s, x.event.sender) == P.Found(id)
    requires IsRound2(x.crypto.formats, st, x) && |m[id := x.event.message.bytes]| >= n - 1
    requires P.IdentifierOfAccount(x.orders, st.peers, s, st.validatorKey) == P.Found(me)
    ensures var m' := m[id := x.event.message.bytes];
            Step(Filled(st, D.Round2, s, m), x) == Returned(Decided(x.crypto, st, s, t, n, m', me), None)
  {
    var m' := m[id := x.event.message.bytes];
    Round2Step(st, s, t, n, m, x, id);
    Round2Fetches(x.crypto, st, s, t, n, m');
    CompleteDecides(x.crypto, x.orders, WithTable(st, D.Round2, s, m'), s, t, n, D.Get(st.store, D.Round1, s), m', me);
  }

  /** The (n - 1)-th round-2 package decides: with a successful last part the key
      is generated and its files are written, otherwise the session has failed. */
  lemma Round2Completes(f: Formats, st: State, s: SessionId, t: nat, n: nat, run: seq<Stimulus>, ids: seq<Identifier>, me: Identifier)
    requires SecondRound(f, st, s, t, n) && FromEach(st, s, run, ids) && AreRound2(f, st, run) && |run| == n - 1 >= 1
    requires P.IdentifierOfAccount(run[n - 2].orders, st.peers, s, st.validatorKey) == P.Found(me)
    ensures Run(st, run) == Some(Decided(run[n - 2].crypto, st, s, t, n, Collected(run, ids), me))
  {
    var k := |run| - 1;
    assert FromEach(st, s, run[..k], ids[..k]) && AreRound2(f, st, run[..k]);
    Round2Fills(f, st, s, t, n, run[..k], ids[..k]);
    Round2Decides(f, st, s, t, n, run, ids, me);
    RunLast(st, run, FilledAt(st, D.Round2, s, run, ids, k), Decided(run[k].crypto, st, s, t, n, Collected(run, ids), me));
  }

  lemma Round2Decides(f: Formats, st: State, s: SessionId, t: nat, n: nat, run: seq<Stimulus>, ids: seq<Identifier>, me: Identifier)
    requires SecondRound(f, st, s, t, n) && FromEach(st, s, run, ids) && AreRound2(f, st, run) && |run| == n - 1 >= 1
    requires P.IdentifierOfAccount(run[n - 2].orders, st.peers, s, st.validatorKey) == P.Found(me)
    ensures Goes(FilledAt(st, D.Round2, s, run, ids, n - 2), run[n - 2], Decided(run[n - 2].crypto, st, s, t, n, Collected(run, ids), me))
  {
    var k := n - 2;
    assert IsRound2(f, st, run[k]);
    CollectedNext(st, s, run, ids, f.round2Parses);
    LastRound2(st, s, t, n, Collected(run[..k], ids[..k]), run[k], ids[k], me);
  }

  // ---------------------------------------------------------------- the whole generation

  /** The state in which the key has been generated. */
  function Generated(st: State, s: SessionId, t: nat, n: nat, round1: Packages, round2: Packages, me: Identifier): State {
    SetDkg(WithKeys(WithTable(InSecondRound(st, s, t, n, round1), D.Round2, s, round2), s, me, t), s, KeyGenerated)
  }

  /** If every other participant's round-1 package arrives, then every other
      participant's round-2 package, in any order within a round, and the library
      accepts them, then the node ends in `KeyGenerated` with both key files. */
  lemma HonestKeyGeneration(f: Formats, st: State, s: SessionId, t: nat, n: nat,
                            run1: seq<Stimulus>, ids1: seq<Identifier>, run2: seq<Stimulus>, ids2: seq<Identifier>, me: Identifier)
    requires Prepared(st, s, t, n) && n >= 2
    requires FromEach(st, s, run1, ids1) && AreRound1(f, run1) && |run1| == n - 1
    requires FromEach(st, s, run2, ids2) && AreRound2(f, st, run2) && |run2| == n - 1
    requires (D.SecretPackage(t, n), Collected(run1, ids1)) in run1[n - 2].crypto.part2
    requires (D.SecretPackage(t, n), Collected(run1, ids1), Collected(run2, ids2)) in run2[n - 2].crypto.part3
    requires P.IdentifierOfAccount(run2[n - 2].orders, st.peers, s, st.validatorKey) == P.Found(me)
    ensures var end := Run(st, run1 + run2);
            && end == Some(Generated(st, s, t, n, Collected(run1, ids1), Collected(run2, ids2), me))
            && DkgOf(end.value, s) == KeyGenerated
            && end.value.keys == st.keys[(s, PubKey, me) := D.PublicKeys][(s, Key, me) := D.KeyPackage(t)]
  {
    Round1Completes(f, st, s, t, n, run1, ids1);
    CollectedParse(run1, ids1, f.round1Parses);
    SecondHalf(f, st, s, t, n, Collected(run1, ids1), run2, ids2, me);
    RunSplit(st, run1, run2);
  }

  lemma SecondHalf(f: Formats, st: State, s: SessionId, t: nat, n: nat, round1: Packages, run2: seq<Stimulus>, ids2: seq<Identifier>, me: Identifier)
    requires Prepared(st, s, t, n) && n >= 2 && forall id :: id in round1 ==> round1[id] in f.round1Parses
    requires FromEach(st, s, run2, ids2) && AreRound2(f, st, run2) && |run2| == n - 1
    requires (D.SecretPackage(t, n), round1, Collected(run2, ids2)) in run2[n - 2].crypto.part3
    requires P.IdentifierOfAccount(run2[n - 2].orders, st.peers, s, st.validatorKey) == P.Found(me)
    ensures Run(InSecondRound(st, s, t, n, round1), run2) == Some(Generated(st, s, t, n, round1, Collected(run2, ids2), me))
  {
    var st2 := InSecondRound(st, s, t, n, round1);
    assert D.Get(st2.store, D.Round1, s) == round1;
    assert FromEach(st2, s, run2, ids2);
    Round2Completes(f, st2, s, t, n, run2, ids2, me);
  }

  /** The state after a session has been recorded. */
  function Added(st: State, now: int, s: SessionId, d: SessionData, participants: seq<Account>): State
    requires P.AddParticipants(st.peers, s, participants).Some?
  {
    st.(data := st.data[s := d], peers := P.AddParticipants(st.peers, s, participants).value, stamps := st.stamps[s := now])
  }

  lemma PhaseLeavesPrepared(c: Crypto, st: State, slot: E.Slot, s: SessionId, t: nat, n: nat)
    requires Prepared(st, s, t, n)
    ensures Prepared(WithPhase(c, st, slot), s, t, n) && WithPhase(c, st, slot).stamps == st.stamps
  {
  }

  /** Creating a session of which nothing is known yet prepares it. */
  lemma CreationPrepares(c: Crypto, o: P.Orders, st: State, now: int, s: SessionId, t: nat, n: nat, participants: seq<Account>, depth: nat)
    requires Waiting(st, s) == [] && D.Get(st.store, D.Round1, s) == map[] && D.Get(st.store, D.Round2, s) == map[]
    requires 1 <= t <= n && 2 <= n == |participants| && st.validatorKey in participants && (t, n) in c.part1
    requires P.AddParticipants(st.peers, s, participants).Some?
    ensures var r := CreateDkg(c, o, st, now, s, t, n, participants, depth);
            r.Returned? && r.error.None? && Prepared(r.st, s, t, n) && r.st.stamps[s] == now
  {
    var added := AddSession(st, now, s, SessionData(t, n, NOBODY, ""), participants).st;
    assert s in added.data && added.stamps[s] == now;
    assert Waiting(added, s) == Waiting(st, s) && added.store == st.store && added.validatorKey == st.validatorKey;
    StartPrepares(c, o, added, s, t, n, participants, depth);
    var r := StartDkg(c, o, added, s, t, n, participants, depth);
    PhaseLeavesPrepared(c, r.st, (E.Keygen, s), s, t, n);
  }

  lemma StartPrepares(c: Crypto, o: P.Orders, st: State, s: SessionId, t: nat, n: nat, participants: seq<Account>, depth: nat)
    requires Waiting(st, s) == [] && D.Get(st.store, D.Round1, s) == map[] && D.Get(st.store, D.Round2, s) == map[]
    requires s in st.data && n >= 2 && st.validatorKey in participants && (t, n) in c.part1
    ensures var r := StartDkg(c, o, st, s, t, n, participants, depth);
            r.Returned? && r.error.None? && Prepared(r.st, s, t, n) && r.st.stamps == st.stamps
  {
    var st1 := Touched(SetDkg(StoredData(st, s, DKGRound1SecretPackage, D.SecretPackage(t, n)), s, Round1Initiated), s);
    assert ReplayRound1(c, o, st1, s, [], depth) == Returned(st1, None);
    assert D.Fetch(st1.store, D.Round1, s, c.formats.round1Parses) == Some(map[]);
    assert VerifyRound1(c, o, st1, s, depth) == Returned(st1, None);
  }

  /** Starting with an empty buffer while packages of an earlier session of the
      same id are still stored. */
  lemma StartWithLeftovers(c: Crypto, o: P.Orders, st: State, s: SessionId, t: nat, n: nat, participants: seq<Account>, depth: nat, left: Packages)
    requires Waiting(st, s) == [] && st.validatorKey in participants && (t, n) in c.part1
    requires D.Fetch(st.store, D.Round1, s, c.formats.round1Parses) == Some(left)
    ensures var st1 := Touched(SetDkg(StoredData(st, s, DKGRound1SecretPackage, D.SecretPackage(t, n)), s, Round1Initiated), s);
            StartDkg(c, o, st, s, t, n, participants, depth) ==
              if |left| < n - 1 then Returned(st1, None) else StartRound2(c, o, st1, s, D.SecretPackage(t, n), left, depth)
  {
    var st1 := Touched(SetDkg(StoredData(st, s, DKGRound1SecretPackage, D.SecretPackage(t, n)), s, Round1Initiated), s);
    assert ReplayRound1(c, o, st1, s, [], depth) == Returned(st1, None);
    assert D.Get(st1.store, D.Round1, s) == D.Get(st.store, D.Round1, s);
    assert Secret(st1, s, DKGRound1SecretPackage) == Some(D.SecretPackage(t, n));
  }

  lemma StartedIsInRound2(c: Crypto, o: P.Orders, st: State, s: SessionId, secret: D.Blob, packages: Packages, depth: nat)
    requires Waiting(st, s) == [] && (secret, packages) in c.part2
    ensures var r := StartRound2(c, o, st, s, secret, packages, depth); r.Returned? ==> InRound2(r.st, s)
  {
    var st1 := SetDkg(StoredData(st, s, DKGRound2SecretPackage, secret), s, Round2Initiated);
    if depth > 0 {
      assert ReplayRound2(c, o, Touched(st1, s), s, [], depth - 1) == Returned(Touched(st1, s), None);
      CompleteStaysInRound2(c, o, Touched(st1, s), s);
    }
  }

  lemma CompleteStaysInRound2(c: Crypto, o: P.Orders, st: State, s: SessionId)
    requires InRound2(st, s)
    ensures var r := Complete(c, o, st, s); r.Returned? ==> InRound2(r.st, s)
  {
    assert InRound2(SetDkg(st, s, DkgFailed), s);
    assert forall id, t :: InRound2(SetDkg(WithKeys(st, s, id, t), s, KeyGenerated), s);
  }

  lemma StartSkipsRound1Iff(c: Crypto, o: P.Orders, st: State, s: SessionId, t: nat, n: nat, participants: seq<Account>, depth: nat, left: Packages)
    requires Waiting(st, s) == [] && st.validatorKey in participants && (t, n) in c.part1
    requires D.Fetch(st.store, D.Round1, s, c.formats.round1Parses) == Some(left) && (D.SecretPackage(t, n), left) in c.part2
    ensures var r := StartDkg(c, o, st, s, t, n, participants, depth);
            && (r.Returned? ==> (InRound2(r.st, s) <==> |left| >= n - 1))
            && (|left| < n - 1 ==> r.Returned? && r.error.None? && DkgOf(r.st, s) == Round1Initiated)
  {
    StartWithLeftovers(c, o, st, s, t, n, participants, depth, left);
    var st1 := Touched(SetDkg(StoredData(st, s, DKGRound1SecretPackage, D.SecretPackage(t, n)), s, Round1Initiated), s);
    StartedIsInRound2(c, o, st1, s, D.SecretPackage(t, n), left, depth);
  }

  lemma CreationSkipsRound1Iff(c: Crypto, o: P.Orders, st: State, now: int, s: SessionId, t: nat, n: nat,
                               participants: seq<Account>, depth: nat, left: Packages)
    requires Waiting(st, s) == []
    requires 1 <= t <= n == |participants| && st.validatorKey in participants && (t, n) in c.part1
    requires P.AddParticipants(st.peers, s, participants).Some?
    requires D.Fetch(st.store, D.Round1, s, c.formats.round1Parses) == Some(left) && (D.SecretPackage(t, n), left) in c.part2
    ensures var r := CreateDkg(c, o, st, now, s, t, n, participants, depth);
            && (r.Returned? ==> (InRound2(r.st, s) <==> |left| >= n - 1))
            && (|left| < n - 1 ==> r.Returned? && DkgOf(r.st, s) == Round1Initiated)
  {
    CreateDkgStarts(c, o, st, now, s, t, n, participants, depth);
    StartSkipsRound1Iff(c, o, Added(st, now, s, SessionData(t, n, NOBODY, ""), participants), s, t, n, participants, depth, left);
  }

  /** Expiry does not remove packages: a session that is created again after its
      clean-up skips round 1 if and only if n - 1 old packages are left, provided
      the library takes them. */
  lemma RecreatedSkipsRound1Iff(c: Crypto, o: P.Orders, st: State, expiry: int, now: int, s: SessionId, t: nat, n: nat,
                                participants: seq<Account>, depth: nat, left: Packages)
    requires TimedOut(st, s, expiry)
    requires 1 <= t <= n == |participants| && st.validatorKey in participants && (t, n) in c.part1
    requires P.AddParticipants(Cleanup(st, expiry).peers, s, participants).Some?
    requires D.Fetch(st.store, D.Round1, s, c.formats.round1Parses) == Some(left) && (D.SecretPackage(t, n), left) in c.part2
    ensures var r := CreateDkg(c, o, Cleanup(st, expiry), now, s, t, n, participants, depth);
            && (r.Returned? ==> (InRound2(r.st, s) <==> |left| >= n - 1))
            && (|left| < n - 1 ==> r.Returned? && DkgOf(r.st, s) == Round1Initiated)
  {
    CreationSkipsRound1Iff(c, o, Cleanup(st, expiry), now, s, t, n, participants, depth, left);
  }

  lemma CreateDkgStarts(c: Crypto, o: P.Orders, st: State, now: int, s: SessionId, t: nat, n: nat, participants: seq<Account>, depth: nat)
    requires 1 <= t <= n == |participants| && P.AddParticipants(st.peers, s, participants).Some?
    ensures var r := StartDkg(c, o, Added(st, now, s, SessionData(t, n, NOBODY, ""), participants), s, t, n, participants, depth);
            CreateDkg(c, o, st, now, s, t, n, participants, depth) ==
              if r.Returned? && r.error.None? then Returned(WithPhase(c, r.st, (E.Keygen, s)), None) else r
  {
  }

  // ---------------------------------------------------------------- signing

  /** A session that this node coordinates, before any commitment has come. */
  ghost predicate Coordinating(st: State, s: SessionId, t: nat) {
    && s in st.data && st.data[s].t == t && st.data[s].coordinator == st.validatorKey
    && s in st.signing && st.signing[s].Rank() < Sign2Completed.Rank()
    && D.Get(st.store, D.Commitments, s) == map[] && D.Get(st.store, D.Shares, s) == map[]
  }

  lemma {:induction false} LastPositionIs(participants: seq<Account>, a: Account)
    ensures match LastPosition(participants, a)
            case Some(i) => i < |participants| && participants[i] == a && a !in participants[i + 1..]
            case None => a !in participants
  {
    if participants != [] {
      var k := |participants| - 1;
      LastPositionIs(participants[..k], a);
      assert participants == participants[..k] + [participants[k]];
      if participants[k] != a && LastPosition(participants[..k], a).Some? {
        var i := LastPosition(participants[..k], a).value;
        assert participants[i + 1..] == participants[..k][i + 1..] + [participants[k]];
      }
    }
  }

  /** Signing starts if and only if a key file is there under the node's position
      in the list; otherwise the node panics. For the coordinator the start state of
      `HonestSigning` follows. */
  lemma SigningCreationPrepares(c: Crypto, o: P.Orders, st: State, now: int, s: SessionId, d: SessionData, participants: seq<Account>, offline: bool)
    requires D.Get(st.store, D.Commitments, s) == map[] && D.Get(st.store, D.Shares, s) == map[]
    requires 1 <= d.t <= d.n == |participants| && P.AddParticipants(st.peers, s, participants).Some?
    requires st.validatorKey in participants
    ensures var r := CreateSigning(c, o, st, now, s, d, participants, offline);
            var mine := LastPosition(participants, st.validatorKey);
            && mine.Some?
            && var file := (s, Key, mine.value + 1);
            && (r.Returned? <==> file in st.keys)
            && (file in st.keys && st.keys[file].KeyPackage? && d.coordinator == st.validatorKey ==>
                  Coordinating(r.st, s, d.t) && r.st.stamps[s] == now && r.st.keys == st.keys && r.st.validatorKey == st.validatorKey)
  {
    LastPositionIs(participants, st.validatorKey);
    CreateSigningStarts(c, o, st, now, s, d, participants, offline);
    var added := Added(st, now, s, d, participants);
    StartSigningPrepares(o, added, s, d, participants);
    var r := StartSigning(o, added, s, participants, d.coordinator);
    var file := (s, Key, LastPosition(participants, st.validatorKey).value + 1);
    if file in st.keys && st.keys[file].KeyPackage? && d.coordinator == st.validatorKey {
      PhaseLeavesCoordinating(c, r.st, (E.SignOnline, s), s, d.t);
    }
  }

  lemma CreateSigningStarts(c: Crypto, o: P.Orders, st: State, now: int, s: SessionId, d: SessionData, participants: seq<Account>, offline: bool)
    requires 1 <= d.t <= d.n == |participants| && P.AddParticipants(st.peers, s, participants).Some?
    ensures var r := StartSigning(o, Added(st, now, s, d, participants), s, participants, d.coordinator);
            CreateSigning(c, o, st, now, s, d, participants, offline) ==
              if r.Returned? && st.validatorKey in participants && offline
              then Returned(WithPhase(c, r.st, (E.SignOnline, s)), None) else r
  {
  }

  lemma PhaseLeavesCoordinating(c: Crypto, st: State, slot: E.Slot, s: SessionId, t: nat)
    requires Coordinating(st, s, t)
    ensures var b := WithPhase(c, st, slot);
            Coordinating(b, s, t) && b.stamps == st.stamps && b.keys == st.keys && b.validatorKey == st.validatorKey
  {
  }

  lemma StartSigningPrepares(o: P.Orders, st: State, s: SessionId, d: SessionData, participants: seq<Account>)
    requires D.Get(st.store, D.Commitments, s) == map[] && D.Get(st.store, D.Shares, s) == map[]
    requires s in st.data && st.data[s] == d
    requires LastPosition(participants, st.validatorKey).Some?
    ensures var r := StartSigning(o, st, s, participants, d.coordinator);
            var file := (s, Key, LastPosition(participants, st.validatorKey).value + 1);
            && (r.Returned? <==> file in st.keys)
            && (file in st.keys && st.keys[file].KeyPackage? && d.coordinator == st.validatorKey ==>
                  Coordinating(r.st, s, d.t) && r.st.stamps == st.stamps && r.st.keys == st.keys && r.st.validatorKey == st.validatorKey)
  {
  }

  lemma GeneratedKeys(st: State, s: SessionId, t: nat, n: nat, round1: Packages, round2: Packages, me: Identifier)
    requires forall id: Identifier :: (s, Key, id) !in st.keys
    ensures var b := Generated(st, s, t, n, round1, round2, me);
            b.peers == st.peers && b.validatorKey == st.validatorKey && OnlyKeyOf(b, s, me)
  {
  }

  lemma GeneratedTables(st: State, s: SessionId, t: nat, n: nat, round1: Packages, round2: Packages, me: Identifier)
    ensures var b := Generated(st, s, t, n, round1, round2, me);
            && D.Get(b.store, D.Commitments, s) == D.Get(st.store, D.Commitments, s)
            && D.Get(b.store, D.Shares, s) == D.Get(st.store, D.Shares, s)
  {
    var st1 := InSecondRound(st, s, t, n, round1);
    var st2 := WithTable(st1, D.Round2, s, round2);
    assert D.Get(st1.store, D.Commitments, s) == D.Get(st.store, D.Commitments, s) == D.Get(st2.store, D.Commitments, s);
    assert D.Get(st1.store, D.Shares, s) == D.Get(st.store, D.Shares, s) == D.Get(st2.store, D.Shares, s);
  }

  /** A signing request for s that names this node and has usable numbers. */
  ghost predicate CanSign(st: State, s: SessionId, x: Stimulus) {
    && x.event.SigningInfo? && x.event.s == s && st.validatorKey in x.event.participants
    && 1 <= x.event.d.t <= x.event.d.n == |x.event.participants|
    && P.AddParticipants(st.peers, s, x.event.participants).Some?
  }

  /** The only key file of s is that of identifier `me`. */
  ghost predicate OnlyKeyOf(st: State, s: SessionId, me: Identifier) {
    && (s, Key, me) in st.keys && st.keys[(s, Key, me)].KeyPackage?
    && forall id: Identifier :: (s, Key, id) in st.keys ==> id == me
  }

  lemma OnlyKeyDecides(st: State, s: SessionId, me: Identifier, x: Stimulus)
    requires D.Get(st.store, D.Commitments, s) == map[] && D.Get(st.store, D.Shares, s) == map[]
    requires CanSign(st, s, x) && OnlyKeyOf(st, s, me)
    ensures var r := Step(st, x);
            && LastPosition(x.event.participants, st.validatorKey).Some?
            && (r.Returned? <==> me == LastPosition(x.event.participants, st.validatorKey).value + 1)
            && (r.Returned? && x.event.d.coordinator == st.validatorKey ==> Coordinating(r.st, s, x.event.d.t))
  {
    var d, participants := x.event.d, x.event.participants;
    SigningCreationPrepares(x.crypto, x.orders, st, x.now, s, d, participants, x.event.offline);
    var file := (s, Key, LastPosition(participants, st.validatorKey).value + 1);
    assert file in st.keys <==> file.2 == me;
    SigningStepIs(st, s, x);
  }

  lemma OnlyKeyDecidesRun(st: State, run: seq<Stimulus>, b: State, s: SessionId, me: Identifier, x: Stimulus)
    requires Run(st, run) == Some(b)
    requires D.Get(b.store, D.Commitments, s) == map[] && D.Get(b.store, D.Shares, s) == map[]
    requires CanSign(b, s, x) && OnlyKeyOf(b, s, me)
    ensures var end, mine := Run(st, run + [x]), LastPosition(x.event.participants, b.validatorKey);
            && mine.Some?
            && (end.Some? <==> me == mine.value + 1)
            && (end.Some? && x.event.d.coordinator == b.validatorKey ==> Coordinating(end.value, s, x.event.d.t))
  {
    OnlyKeyDecides(b, s, me, x);
    RunAppend(st, run, x, b);
  }

  lemma SigningStepIs(st: State, s: SessionId, x: Stimulus)
    requires x.event.SigningInfo? && x.event.s == s
    ensures Step(st, x) == CreateSigning(x.crypto, x.orders, st, x.now, s, x.event.d, x.event.participants, x.event.offline)
  {
  }

  /** Keys are stored under the node's identifier, its validator id if it has one,
      but looked up under its position in the list. So after an orderly key generation without
      older key files, the signing session of the same id starts if and only if the
      two agree; otherwise the node panics. */
  lemma SigningStartsIffIdsAgree(f: Formats, st: State, s: SessionId, t: nat, n: nat,
                                 run1: seq<Stimulus>, ids1: seq<Identifier>, run2: seq<Stimulus>, ids2: seq<Identifier>, me: Identifier, x: Stimulus)
    requires Prepared(st, s, t, n) && n >= 2
    requires FromEach(st, s, run1, ids1) && AreRound1(f, run1) && |run1| == n - 1
    requires FromEach(st, s, run2, ids2) && AreRound2(f, st, run2) && |run2| == n - 1
    requires (D.SecretPackage(t, n), Collected(run1, ids1)) in run1[n - 2].crypto.part2
    requires (D.SecretPackage(t, n), Collected(run1, ids1), Collected(run2, ids2)) in run2[n - 2].crypto.part3
    requires P.IdentifierOfAccount(run2[n - 2].orders, st.peers, s, st.validatorKey) == P.Found(me)
    requires D.Get(st.store, D.Commitments, s) == map[] && D.Get(st.store, D.Shares, s) == map[]
    requires CanSign(st, s, x) && forall id: Identifier :: (s, Key, id) !in st.keys
    ensures var end, mine := Run(st, run1 + run2 + [x]), LastPosition(x.event.participants, st.validatorKey);
            && mine.Some?
            && (end.Some? <==> me == mine.value + 1)
            && (end.Some? && x.event.d.coordinator == st.validatorKey ==> Coordinating(end.value, s, x.event.d.t))
  {
    HonestKeyGeneration(f, st, s, t, n, run1, ids1, run2, ids2, me);
    var b := Generated(st, s, t, n, Collected(run1, ids1), Collected(run2, ids2), me);
    GeneratedKeys(st, s, t, n, Collected(run1, ids1), Collected(run2, ids2), me);
    GeneratedTables(st, s, t, n, Collected(run1, ids1), Collected(run2, ids2), me);
    OnlyKeyDecidesRun(st, run1 + run2, b, s, me, x);
  }

  ghost predicate AreCommitments(f: Formats, run: seq<Stimulus>) {
    forall x :: x in run ==>
      x.crypto.formats == f && x.event.GossipEvent? && x.event.message.SigningCommitment? && x.event.message.bytes in f.commitmentParses
  }

  ghost predicate AreShares(f: Formats, run: seq<Stimulus>) {
    forall x :: x in run ==>
      x.crypto.formats == f && x.event.GossipEvent? && x.event.message.SigningShare? && x.event.message.bytes in f.shareParses
  }

  /** The state in which the signing package is stored and sent. */
  function Packaged(st: State, s: SessionId, commitments: Packages): State {
    SetSigning(StoredData(WithTable(st, D.Commitments, s, commitments), s, SigningPackage, D.Package(commitments)), s, Sign2Completed)
  }

  lemma CommitmentHandled(c: Crypto, o: P.Orders, now: int, st: State, s: SessionId, t: nat, m: Packages, bytes: Bytes, sender: PeerId, id: Identifier)
    requires Coordinating(st, s, t) && !TimedOut(st, s, now) && (forall k :: k in m ==> m[k] in c.formats.commitmentParses)
    requires P.IdentifierOfPeer(o, st.peers, s, sender) == P.Found(id) && bytes in c.formats.commitmentParses && |m[id := bytes]| <= U16_MAX
    ensures var m' := m[id := bytes];
            HandleCommitment(c, o, Filled(st, D.Commitments, s, m), now, s, bytes, sender) ==
              Returned(if |m'| < t then WithTable(st, D.Commitments, s, m') else Packaged(st, s, m'), None)
  {
    StoredIsFilled(st, D.Commitments, s, m, id, bytes, c.formats.commitmentParses);
  }

  lemma CommitmentIsHandled(b: State, s: SessionId, x: Stimulus)
    requires Reaches(b, s, x) && x.event.message.SigningCommitment?
    ensures Step(b, x) == HandleCommitment(x.crypto, x.orders, b, x.now, s, x.event.message.bytes, x.event.sender)
  {
  }

  /** Commitments fill the table until the t-th, which closes the package. */
  lemma {:induction false} CommitmentsArrive(f: Formats, st: State, s: SessionId, t: nat, run: seq<Stimulus>, ids: seq<Identifier>)
    requires Coordinating(st, s, t) && FromEach(st, s, run, ids) && AreCommitments(f, run) && |run| <= t <= U16_MAX && t > 0
    ensures var m := Collected(run, ids);
            Run(st, run) == Some(if |run| < t then Filled(st, D.Commitments, s, m) else Packaged(st, s, m))
  {
    if run != [] {
      var k := |run| - 1;
      var m, x := Collected(run[..k], ids[..k]), run[k];
      CollectedNext(st, s, run, ids, f.commitmentParses);
      CommitmentsArrive(f, st, s, t, run[..k], ids[..k]);
      CommitmentHandled(x.crypto, x.orders, x.now, st, s, t, m, x.event.message.bytes, x.event.sender, ids[k]);
      CommitmentIsHandled(Filled(st, D.Commitments, s, m), s, x);
      RunNext(st, run, Filled(st, D.Commitments, s, m));
    }
  }

  /** The state while shares come in. */
  function Sharing(st: State, s: SessionId, shares: Packages): State {
    SetSigning(Filled(st, D.Shares, s, shares), s, Sign3Initiated)
  }

  lemma ShareHandled(c: Crypto, o: P.Orders, st: State, b: State, s: SessionId, t: nat, m: Packages, bytes: Bytes, sender: PeerId, id: Identifier)
    requires s in st.data && st.data[s].t == t && D.Get(st.store, D.Shares, s) == map[] && (forall k :: k in m ==> m[k] in c.formats.shareParses)
    requires SetSigning(b, s, Sign3Initiated) == Sharing(st, s, m)
    requires P.IdentifierOfPeer(o, b.peers, s, sender) == P.Found(id) && bytes in c.formats.shareParses
    ensures var m' := m[id := bytes];
            HandleShare(c, o, b, s, bytes, sender) ==
              if |m'| < t then Returned(Sharing(st, s, m'), Some(SignatureNotReadyYet))
              else Aggregate(c, o, Sharing(st, s, m'), s, m')
  {
    StoredIsFilled(SetSigning(st, s, Sign3Initiated), D.Shares, s, m, id, bytes, c.formats.shareParses);
  }

  lemma ShareIsHandled(b: State, s: SessionId, x: Stimulus)
    requires Reaches(b, s, x) && x.event.message.SigningShare?
    ensures Step(b, x) == HandleShare(x.crypto, x.orders, b, s, x.event.message.bytes, x.event.sender)
  {
  }

  /** The state after some shares, and what the next one finds. */
  function SoFar(st: State, s: SessionId, shares: Packages): State {
    if shares == map[] then st else Sharing(st, s, shares)
  }

  lemma SoFarIsSharing(st: State, s: SessionId, shares: Packages)
    requires D.Get(st.store, D.Shares, s) == map[]
    ensures SetSigning(SoFar(st, s, shares), s, Sign3Initiated) == Sharing(st, s, shares)
    ensures var b := SoFar(st, s, shares);
            b.data == st.data && b.stamps == st.stamps && b.peers == st.peers
  {
  }

  lemma EarlyShare(st: State, s: SessionId, t: nat, m: Packages, x: Stimulus, id: Identifier)
    requires s in st.data && st.data[s].t == t && D.Get(st.store, D.Shares, s) == map[]
    requires (forall k :: k in m ==> m[k] in x.crypto.formats.shareParses)
    requires Reaches(st, s, x) && P.IdentifierOfPeer(x.orders, st.peers, s, x.event.sender) == P.Found(id)
    requires x.event.message.SigningShare? && x.event.message.bytes in x.crypto.formats.shareParses && |m[id := x.event.message.bytes]| < t
    ensures Step(SoFar(st, s, m), x) == Returned(Sharing(st, s, m[id := x.event.message.bytes]), Some(SignatureNotReadyYet))
  {
    SoFarIsSharing(st, s, m);
    ShareIsHandled(SoFar(st, s, m), s, x);
    ShareHandled(x.crypto, x.orders, st, SoFar(st, s, m), s, t, m, x.event.message.bytes, x.event.sender, id);
  }

  lemma {:induction false} SharesFill(f: Formats, st: State, s: SessionId, t: nat, run: seq<Stimulus>, ids: seq<Identifier>)
    requires s in st.data && st.data[s].t == t && D.Get(st.store, D.Shares, s) == map[]
    requires FromEach(st, s, run, ids) && AreShares(f, run) && |run| < t
    ensures Run(st, run) == Some(SoFar(st, s, Collected(run, ids)))
  {
    if run != [] {
      var k := |run| - 1;
      var m := Collected(run[..k], ids[..k]);
      CollectedNext(st, s, run, ids, f.shareParses);
      SharesFill(f, st, s, t, run[..k], ids[..k]);
      EarlyShare(st, s, t, m, run[k], ids[k]);
      RunNext(st, run, SoFar(st, s, m));
    }
  }

  lemma AggregateDecides(c: Crypto, o: P.Orders, st: State, s: SessionId, commitments: Packages, shares: Packages, me: Identifier)
    requires P.IdentifierOfAccount(o, st.peers, s, st.validatorKey) == P.Found(me) && (s, PubKey, me) in st.keys
    requires (s, SigningPackage) in st.store.data && st.store.data[(s, SigningPackage)] == D.Package(commitments)
    ensures var r := Aggregate(c, o, st, s, shares);
            && r.Returned?
            && r.st == SetSigning(st, s, if (commitments, shares) in c.aggregates then SignatureGenerated else SigningFailed)
  {
  }

  /** The t-th share leads to the aggregation. */
  lemma SharesComplete(f: Formats, st: State, s: SessionId, t: nat, run: seq<Stimulus>, ids: seq<Identifier>, commitments: Packages, me: Identifier)
    requires s in st.data && st.data[s].t == t && D.Get(st.store, D.Shares, s) == map[]
    requires FromEach(st, s, run, ids) && AreShares(f, run) && |run| == t > 0
    requires P.IdentifierOfAccount(run[t - 1].orders, st.peers, s, st.validatorKey) == P.Found(me) && (s, PubKey, me) in st.keys
    requires (s, SigningPackage) in st.store.data && st.store.data[(s, SigningPackage)] == D.Package(commitments)
    ensures var m := Collected(run, ids);
            Run(st, run) == Some(SetSigning(Sharing(st, s, m), s,
              if (commitments, m) in run[t - 1].crypto.aggregates then SignatureGenerated else SigningFailed))
  {
    var k := t - 1;
    var m := Collected(run[..k], ids[..k]);
    CollectedNext(st, s, run, ids, f.shareParses);
    SharesFill(f, st, s, t, run[..k], ids[..k]);
    LastShare(st, s, t, m, run[k], ids[k], commitments, me);
    RunNext(st, run, SoFar(st, s, m));
  }

  lemma LastShare(st: State, s: SessionId, t: nat, m: Packages, x: Stimulus, id: Identifier, commitments: Packages, me: Identifier)
    requires s in st.data && st.data[s].t == t && D.Get(st.store, D.Shares, s) == map[]
    requires (forall k :: k in m ==> m[k] in x.crypto.formats.shareParses)
    requires Reaches(st, s, x) && P.IdentifierOfPeer(x.orders, st.peers, s, x.event.sender) == P.Found(id)
    requires x.event.message.SigningShare? && x.event.message.bytes in x.crypto.formats.shareParses && |m[id := x.event.message.bytes]| >= t
    requires P.IdentifierOfAccount(x.orders, st.peers, s, st.validatorKey) == P.Found(me) && (s, PubKey, me) in st.keys
    requires (s, SigningPackage) in st.store.data && st.store.data[(s, SigningPackage)] == D.Package(commitments)
    ensures var m' := m[id := x.event.message.bytes];
            var r := Step(SoFar(st, s, m), x);
            && r.Returned?
            && r.st == SetSigning(Sharing(st, s, m'), s, if (commitments, m') in x.crypto.aggregates then SignatureGenerated else SigningFailed)
  {
    var b, m' := SoFar(st, s, m), m[id := x.event.message.bytes];
    SoFarIsSharing(st, s, m);
    ShareIsHandled(b, s, x);
    ShareHandled(x.crypto, x.orders, st, b, s, t, m, x.event.message.bytes, x.event.sender, id);
    AggregateDecides(x.crypto, x.orders, Sharing(st, s, m'), s, commitments, m', me);
  }

  /** A coordinator that gets commitments from t participants and then shares from
      t participants ends with a signature if the library can aggregate them, and
      with a failed session if it cannot. */
  lemma HonestSigning(f: Formats, st: State, s: SessionId, t: nat,
                      run1: seq<Stimulus>, ids1: seq<Identifier>, run2: seq<Stimulus>, ids2: seq<Identifier>, me: Identifier)
    requires Coordinating(st, s, t) && 0 < t <= U16_MAX
    requires FromEach(st, s, run1, ids1) && AreCommitments(f, run1) && |run1| == t
    requires FromEach(st, s, run2, ids2) && AreShares(f, run2) && |run2| == t
    requires P.IdentifierOfAccount(run2[t - 1].orders, st.peers, s, st.validatorKey) == P.Found(me) && (s, PubKey, me) in st.keys
    ensures var end := Run(st, run1 + run2);
            && end.Some? && s in end.value.signing
            && end.value.signing[s] == (if (Collected(run1, ids1), Collected(run2, ids2)) in run2[t - 1].crypto.aggregates
                                        then SignatureGenerated else SigningFailed)
            && (s, SigningPackage) in end.value.store.data
            && end.value.store.data[(s, SigningPackage)] == D.Package(Collected(run1, ids1))
  {
    CommitmentsArrive(f, st, s, t, run1, ids1);
    var st2 := Packaged(st, s, Collected(run1, ids1));
    assert FromEach(st2, s, run2, ids2);
    SharesComplete(f, st2, s, t, run2, ids2, Collected(run1, ids1), me);
    RunSplit(st, run1, run2);
  }
}
