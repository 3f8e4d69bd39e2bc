/** The race at the start of key generation: packages of the other participants
    may arrive before the node itself hears of the session. They wait in the buffer
    and are replayed when the session is created, so that it does not matter how
    many of them came too early. */
module SessionStart {
  import opened Prelude
  import opened FileNames
  import opened SessionProgress
  import opened Sessions
  import D = DkgStorage
  import P = PeerMapping
  import E = Ecdsa

  // ---------------------------------------------------------------- waiting

  ghost predicate IsRound1(s: SessionId, x: Stimulus) {
    x.event.GossipEvent? && x.event.s == s && x.event.message.DkgRound1?
  }

  ghost predicate AllRound1(s: SessionId, run: seq<Stimulus>) {
    forall i :: 0 <= i < |run| ==> run[i].event.GossipEvent? && run[i].event.s == s && run[i].event.message.DkgRound1?
  }

  /** The buffer entries that these messages become. */
  function Entries(run: seq<Stimulus>): seq<(PeerId, Message)>
    requires forall i :: 0 <= i < |run| ==> run[i].event.GossipEvent?
  {
    seq(|run|, i requires 0 <= i < |run| => (run[i].event.sender, run[i].event.message))
  }

  function Kept(st: State, s: SessionId, ms: seq<(PeerId, Message)>): State {
    if ms == [] then st else st.(buffer := st.buffer[s := Waiting(st, s) + ms])
  }

  /** Round-1 messages for an unknown session wait, in order, and do nothing else. */
  lemma EarlyPackagesWait(st: State, s: SessionId, run: seq<Stimulus>)
    requires s !in st.data && AllRound1(s, run)
    ensures Run(st, run) == Some(Kept(st, s, Entries(run)))
  {
    var ms := Entries(run);
    var states := seq(|run| + 1, i requires 0 <= i <= |run| => Kept(st, s, ms[..i]));
    forall i | 0 <= i < |run| ensures Goes(states[i], run[i], states[i + 1]) {
      var x := run[i];
      assert ms[..i + 1] == ms[..i] + [(x.event.sender, x.event.message)];
      WaitsBehind(st, s, ms[..i], x.event.sender, x.event.message);
      EarlyOneWaits(states[i], s, x);
    }
    assert ms[..0] == [] && ms[..|run|] == ms;
    TraceRuns(states, run);
  }

  lemma EarlyOneWaits(st: State, s: SessionId, x: Stimulus)
    requires s !in st.data && IsRound1(s, x)
    ensures Step(st, x) == Returned(Buffered(st, s, x.event.sender, x.event.message), None)
  {
  }

  lemma WaitsBehind(st: State, s: SessionId, ms: seq<(PeerId, Message)>, sender: PeerId, m: Message)
    ensures Buffered(Kept(st, s, ms), s, sender, m) == Kept(st, s, ms + [(sender, m)])
  {
    var w, e := Waiting(st, s), (sender, m);
    assert w + ms + [e] == w + (ms + [e]);
    assert ms == [] ==> w + [e] == w + (ms + [e]);
    assert st.buffer[s := w + ms][s := w + ms + [e]] == st.buffer[s := w + (ms + [e])];
  }

  // ---------------------------------------------------------------- replaying

  /** The messages come from different participants, as b knows them, and parse. */
  ghost predicate FromSome(f: Formats, o: P.Orders, b: State, s: SessionId, run: seq<Stimulus>, ids: seq<Identifier>) {
    && |run| == |ids| && NoDup(ids)
    && forall i :: 0 <= i < |run| ==>
         && IsRound1(s, run[i]) && run[i].event.message.bytes in f.round1Parses
         && P.IdentifierOfPeer(o, b.peers, s, run[i].event.sender) == P.Found(ids[i])
  }

  /** Where the packages collected so far have brought a session of n. */
  function Reached(b: State, s: SessionId, t: nat, n: nat, m: Packages): State {
    if |m| < n - 1 then Filled(b, D.Round1, s, m) else InSecondRound(b, s, t, n, m)
  }

  /** Where the first k packages have brought the session. */
  function At(b: State, s: SessionId, t: nat, n: nat, all: seq<Stimulus>, ids: seq<Identifier>, k: nat): State
    requires |all| == |ids| && k <= |all| && forall i :: 0 <= i < |all| ==> all[i].event.GossipEvent?
  {
    Reached(b, s, t, n, Collected(all[..k], ids[..k]))
  }

  lemma PrefixNext(run: seq<Stimulus>, ids: seq<Identifier>, f: Formats, k: nat)
    requires |run| == |ids| && NoDup(ids) && k < |run|
    requires forall i :: 0 <= i < |run| ==> run[i].event.GossipEvent? && run[i].event.message.bytes in f.round1Parses
    ensures var m, m' := Collected(run[..k], ids[..k]), Collected(run[..k + 1], ids[..k + 1]);
            && m' == m[ids[k] := run[k].event.message.bytes] && m' != map[] && |m| == k && |m'| == k + 1
            && (forall id :: id in m ==> m[id] in f.round1Parses) && (forall id :: id in m' ==> m'[id] in f.round1Parses)
  {
    assert run[..k + 1][..k] == run[..k] && ids[..k + 1][..k] == ids[..k];
    CollectedLast(run[..k + 1], ids[..k + 1], f.round1Parses);
    CollectedParse(run[..k + 1], ids[..k + 1], f.round1Parses);
    CollectedSize(run[..k], ids[..k]);
  }

  /** One replayed package. */
  lemma ReplayedOne(c: Crypto, o: P.Orders, b: State, s: SessionId, t: nat, n: nat, m: Packages, x: Stimulus, id: Identifier, depth: nat)
    requires Prepared(b, s, t, n) && n >= 2 && depth > 0 && IsRound1(s, x)
    requires P.IdentifierOfPeer(o, b.peers, s, x.event.sender) == P.Found(id) && x.event.message.bytes in c.formats.round1Parses
    requires (forall k :: k in m ==> m[k] in c.formats.round1Parses) && |m| < n - 1 && id !in m
    requires |m| == n - 2 ==> (D.SecretPackage(t, n), m[id := x.event.message.bytes]) in c.part2
    ensures HandleRound1(c, o, Reached(b, s, t, n, m), s, x.event.message.bytes, x.event.sender, depth) ==
              Returned(Reached(b, s, t, n, m[id := x.event.message.bytes]), None)
  {
    var m' := m[id := x.event.message.bytes];
    assert id in m' && |m'| == |m| + 1;
    Round1Handled(c, o, b, s, t, n, m, x.event.message.bytes, x.event.sender, id, depth);
    if |m'| == n - 1 {
      Round2Starts(c, o, b, s, t, n, m', depth);
    }
  }

  /** The k-th replayed package. */
  lemma ReplayedNext(c: Crypto, o: P.Orders, b: State, s: SessionId, t: nat, n: nat, run: seq<Stimulus>, ids: seq<Identifier>, k: nat, depth: nat)
    requires Prepared(b, s, t, n) && n >= 2 && depth > 0 && FromSome(c.formats, o, b, s, run, ids) && k < |run| <= n - 1
    requires |run| == n - 1 ==> (D.SecretPackage(t, n), Collected(run, ids)) in c.part2
    ensures HandleRound1(c, o, At(b, s, t, n, run, ids, k), s, run[k].event.message.bytes, run[k].event.sender, depth) ==
              Returned(At(b, s, t, n, run, ids, k + 1), None)
  {
    PrefixNext(run, ids, c.formats, k);
    NotYet(run, ids, k);
    assert k + 1 == |run| ==> run[..k + 1] == run && ids[..k + 1] == ids;
    ReplayedOne(c, o, b, s, t, n, Collected(run[..k], ids[..k]), run[k], ids[k], depth);
  }

  /** A replay, state by state. */
  ghost predicate Handles(c: Crypto, o: P.Orders, a: State, s: SessionId, entry: (PeerId, Message), b: State, depth: nat) {
    entry.1.DkgRound1? && HandleRound1(c, o, a, s, entry.1.bytes, entry.0, depth) == Returned(b, None)
  }

  lemma {:induction false} ReplayTrace(c: Crypto, o: P.Orders, states: seq<State>, s: SessionId, ms: seq<(PeerId, Message)>, depth: nat)
    requires |states| == |ms| + 1 && forall i :: 0 <= i < |ms| ==> Handles(c, o, states[i], s, ms[i], states[i + 1], depth)
    ensures ReplayRound1(c, o, states[0], s, ms, depth) == Returned(states[|ms|], None)
    decreases |ms|
  {
    if ms != [] {
      assert Handles(c, o, states[0], s, ms[0], states[1], depth);
      var part, rest := states[1..], ms[1..];
      forall i | 0 <= i < |rest| ensures Handles(c, o, part[i], s, rest[i], part[i + 1], depth) {
        assert Handles(c, o, states[i + 1], s, ms[i + 1], states[i + 2], depth);
      }
      ReplayTrace(c, o, part, s, rest, depth);
    }
  }

  lemma ReplayFills(c: Crypto, o: P.Orders, b: State, s: SessionId, t: nat, n: nat, run: seq<Stimulus>, ids: seq<Identifier>, depth: nat)
    requires Prepared(b, s, t, n) && n >= 2 && depth > 0 && FromSome(c.formats, o, b, s, run, ids) && |run| <= n - 1
    requires |run| == n - 1 ==> (D.SecretPackage(t, n), Collected(run, ids)) in c.part2
    ensures ReplayRound1(c, o, At(b, s, t, n, run, ids, 0), s, Entries(run), depth) == Returned(At(b, s, t, n, run, ids, |run|), None)
  {
    var ms := Entries(run);
    var states := seq(|run| + 1, i requires 0 <= i <= |run| => At(b, s, t, n, run, ids, i));
    forall i | 0 <= i < |ms| ensures Handles(c, o, states[i], s, ms[i], states[i + 1], depth) {
      ReplayedNext(c, o, b, s, t, n, run, ids, i, depth);
    }
    ReplayTrace(c, o, states, s, ms, depth);
  }

  lemma NotYet(run: seq<Stimulus>, ids: seq<Identifier>, k: nat)
    requires |run| == |ids| && NoDup(ids) && k < |run| && forall i :: 0 <= i < |run| ==> run[i].event.GossipEvent?
    ensures ids[k] !in Collected(run[..k], ids[..k])
  {
    CollectedSize(run[..k], ids[..k]);
  }

  /** Verifying again changes nothing: short of n - 1 packages nothing happens, and
      with all of them the second round is entered once more in the same state. */
  lemma VerifyingAgain(c: Crypto, o: P.Orders, b: State, s: SessionId, t: nat, n: nat, m: Packages, depth: nat)
    requires Prepared(b, s, t, n) && n >= 2 && depth > 0 && |m| <= n - 1 && forall k :: k in m ==> m[k] in c.formats.round1Parses
    requires |m| == n - 1 ==> (D.SecretPackage(t, n), m) in c.part2
    ensures VerifyRound1(c, o, Reached(b, s, t, n, m), s, depth) == Returned(Reached(b, s, t, n, m), None)
  {
    var r, secret := Reached(b, s, t, n, m), D.SecretPackage(t, n);
    ReachedHolds(b, s, t, n, m);
    if |m| == n - 1 {
      StartsInPlace(r, s, secret);
      QuietCompletes(c, o, r, s, depth);
      assert Complete(c, o, r, s) == Returned(r, None);
    }
  }

  lemma ReachedHolds(b: State, s: SessionId, t: nat, n: nat, m: Packages)
    requires Prepared(b, s, t, n)
    ensures var r := Reached(b, s, t, n, m);
            && D.Get(r.store, D.Round1, s) == m && D.Get(r.store, D.Round2, s) == map[] && Quiet(r, s)
            && Secret(r, s, DKGRound1SecretPackage) == Some(D.SecretPackage(t, n))
            && DkgOf(r, s) == (if |m| < n - 1 then Round1Initiated else Round2Initiated)
            && (|m| >= n - 1 ==> Secret(r, s, DKGRound2SecretPackage) == Some(D.SecretPackage(t, n)) && s in r.dkg)
  {
    if |m| < n - 1 {
      FilledHolds(b, s, t, n, m);
    } else {
      SecondHolds(b, s, t, n, m);
    }
  }

  lemma FilledHolds(b: State, s: SessionId, t: nat, n: nat, m: Packages)
    requires Prepared(b, s, t, n)
    ensures var r := Filled(b, D.Round1, s, m);
            && D.Get(r.store, D.Round1, s) == m && D.Get(r.store, D.Round2, s) == map[] && Quiet(r, s)
            && Secret(r, s, DKGRound1SecretPackage) == Some(D.SecretPackage(t, n)) && DkgOf(r, s) == Round1Initiated
  {
  }

  lemma SecondHolds(b: State, s: SessionId, t: nat, n: nat, m: Packages)
    requires Prepared(b, s, t, n)
    ensures var r := InSecondRound(b, s, t, n, m);
            && D.Get(r.store, D.Round1, s) == m && D.Get(r.store, D.Round2, s) == map[] && Quiet(r, s)
            && Secret(r, s, DKGRound1SecretPackage) == Some(D.SecretPackage(t, n))
            && Secret(r, s, DKGRound2SecretPackage) == Some(D.SecretPackage(t, n)) && s in r.dkg && r.dkg[s] == Round2Initiated
  {
  }

  lemma StartsInPlace(r: State, s: SessionId, secret: D.Blob)
    requires secret.SecretPackage? && Secret(r, s, DKGRound2SecretPackage) == Some(secret) && s in r.dkg && r.dkg[s] == Round2Initiated
    ensures SetDkg(StoredData(r, s, DKGRound2SecretPackage, secret), s, Round2Initiated) == r
  {
    assert r.dkg[s := Round2Initiated] == r.dkg;
    assert r.store.data[(s, DKGRound2SecretPackage) := secret] == r.store.data;
  }

  // ---------------------------------------------------------------- creating

  /** The session as created with these messages waiting, before their replay. */
  function Opened(c: Crypto, st: State, now: int, s: SessionId, t: nat, n: nat, participants: seq<Account>, ms: seq<(PeerId, Message)>): State
    requires P.AddParticipants(st.peers, s, participants).Some?
  {
    WithPhase(c, Begun(Added(Kept(st, s, ms), now, s, SessionData(t, n, NOBODY, ""), participants), s, t, n), (E.Keygen, s))
  }

  function Begun(st: State, s: SessionId, t: nat, n: nat): State {
    Touched(SetDkg(StoredData(st, s, DKGRound1SecretPackage, D.SecretPackage(t, n)), s, Round1Initiated), s)
  }

  lemma BegunIsPrepared(st: State, s: SessionId, t: nat, n: nat)
    requires s in st.data && D.Get(st.store, D.Round1, s) == map[] && D.Get(st.store, D.Round2, s) == map[]
    requires forall e :: e in Waiting(st, s) ==> e.1.DkgRound1?
    ensures Prepared(Begun(st, s, t, n), s, t, n)
  {
  }

  lemma PhaseCommutes(c: Crypto, b: State, slot: E.Slot, s: SessionId, t: nat, n: nat, m: Packages)
    ensures WithPhase(c, Reached(b, s, t, n, m), slot) == Reached(WithPhase(c, b, slot), s, t, n, m)
  {
    if slot in c.createsPhase {
      EcdsaCommutes(b, E.Create(b.ecdsa, slot), s, t, n, m);
    }
  }

  lemma EcdsaCommutes(b: State, ecdsa: E.State, s: SessionId, t: nat, n: nat, m: Packages)
    ensures Reached(b, s, t, n, m).ecdsa == b.ecdsa
    ensures Reached(b.(ecdsa := ecdsa), s, t, n, m) == Reached(b, s, t, n, m).(ecdsa := ecdsa)
  {
    if |m| < n - 1 {
      TableCommutes(b, ecdsa, s, m);
    } else {
      RoundCommutes(b, ecdsa, s, t, n, m);
    }
  }

  lemma TableCommutes(b: State, ecdsa: E.State, s: SessionId, m: Packages)
    ensures Filled(b, D.Round1, s, m).ecdsa == b.ecdsa
    ensures Filled(b.(ecdsa := ecdsa), D.Round1, s, m) == Filled(b, D.Round1, s, m).(ecdsa := ecdsa)
  {
  }

  lemma RoundCommutes(b: State, ecdsa: E.State, s: SessionId, t: nat, n: nat, m: Packages)
    ensures InSecondRound(b, s, t, n, m).ecdsa == b.ecdsa
    ensures InSecondRound(b.(ecdsa := ecdsa), s, t, n, m) == InSecondRound(b, s, t, n, m).(ecdsa := ecdsa)
  {
  }

  lemma StartReplays(c: Crypto, o: P.Orders, st: State, s: SessionId, t: nat, n: nat, participants: seq<Account>, depth: nat,
                     run: seq<Stimulus>, ids: seq<Identifier>)
    requires st.validatorKey in participants && (t, n) in c.part1 && s in st.data && n >= 2 && depth > 0
    requires D.Get(st.store, D.Round1, s) == map[] && D.Get(st.store, D.Round2, s) == map[]
    requires FromSome(c.formats, o, st, s, run, ids) && |run| <= n - 1 && Waiting(st, s) == Entries(run)
    requires |run| == n - 1 ==> (D.SecretPackage(t, n), Collected(run, ids)) in c.part2
    ensures StartDkg(c, o, st, s, t, n, participants, depth) ==
              Returned(Reached(Begun(st, s, t, n), s, t, n, Collected(run, ids)), None)
  {
    var b := Begun(st, s, t, n);
    BegunIsPrepared(st, s, t, n);
    assert FromSome(c.formats, o, b, s, run, ids);
    assert run[..0] == [] && run[..|run|] == run && ids[..|run|] == ids;
    assert At(b, s, t, n, run, ids, 0) == b;
    ReplayFills(c, o, b, s, t, n, run, ids, depth);
    CollectedParse(run, ids, c.formats.round1Parses);
    CollectedSize(run, ids);
    VerifyingAgain(c, o, b, s, t, n, Collected(run, ids), depth);
  }

  /** A creation of s with usable numbers that names this node. */
  ghost predicate Creates(st: State, s: SessionId, t: nat, n: nat, x: Stimulus) {
    && x.event.DkgInfo? && x.event.s == s && x.event.t == t && x.event.n == n && x.depth > 0
    && 1 <= t <= n == |x.event.participants| && n >= 2 && st.validatorKey in x.event.participants
    && (t, n) in x.crypto.part1 && P.AddParticipants(st.peers, s, x.event.participants).Some?
  }

  /** What the creation makes of the waiting messages. */
  lemma CreationReplays(st: State, s: SessionId, t: nat, n: nat, early: seq<Stimulus>, ids: seq<Identifier>, x: Stimulus)
    requires s !in st.data && Waiting(st, s) == [] && Creates(st, s, t, n, x)
    requires D.Get(st.store, D.Round1, s) == map[] && D.Get(st.store, D.Round2, s) == map[]
    requires FromSome(x.crypto.formats, x.orders, Added(st, x.now, s, SessionData(t, n, NOBODY, ""), x.event.participants), s, early, ids)
    requires |early| <= n - 1
    requires |early| == n - 1 ==> (D.SecretPackage(t, n), Collected(early, ids)) in x.crypto.part2
    ensures var b := Opened(x.crypto, st, x.now, s, t, n, x.event.participants, Entries(early));
            && Prepared(b, s, t, n)
            && Step(Kept(st, s, Entries(early)), x) == Returned(Reached(b, s, t, n, Collected(early, ids)), None)
  {
    var st0, participants := Kept(st, s, Entries(early)), x.event.participants;
    KeptFrame(st, s, Entries(early));
    CreateReplays(x.crypto, x.orders, st0, x.now, s, t, n, participants, x.depth, early, ids);
    CreationIs(st0, x);
  }

  lemma CreateReplays(c: Crypto, o: P.Orders, st: State, now: int, s: SessionId, t: nat, n: nat, participants: seq<Account>, depth: nat,
                      run: seq<Stimulus>, ids: seq<Identifier>)
    requires 1 <= t <= n == |participants| && n >= 2 && st.validatorKey in participants && depth > 0
    requires (t, n) in c.part1 && P.AddParticipants(st.peers, s, participants).Some?
    requires D.Get(st.store, D.Round1, s) == map[] && D.Get(st.store, D.Round2, s) == map[]
    requires FromSome(c.formats, o, Added(st, now, s, SessionData(t, n, NOBODY, ""), participants), s, run, ids)
    requires |run| <= n - 1 && Waiting(st, s) == Entries(run)
    requires |run| == n - 1 ==> (D.SecretPackage(t, n), Collected(run, ids)) in c.part2
    ensures var b := WithPhase(c, Begun(Added(st, now, s, SessionData(t, n, NOBODY, ""), participants), s, t, n), (E.Keygen, s));
            && Prepared(b, s, t, n)
            && CreateDkg(c, o, st, now, s, t, n, participants, depth) == Returned(Reached(b, s, t, n, Collected(run, ids)), None)
  {
    var added := Added(st, now, s, SessionData(t, n, NOBODY, ""), participants);
    StartReplays(c, o, added, s, t, n, participants, depth, run, ids);
    CreateDkgStarts(c, o, st, now, s, t, n, participants, depth);
    BegunIsPrepared(added, s, t, n);
    PhaseLeavesPrepared(c, Begun(added, s, t, n), (E.Keygen, s), s, t, n);
    PhaseCommutes(c, Begun(added, s, t, n), (E.Keygen, s), s, t, n, Collected(run, ids));
  }

  lemma KeptFrame(st: State, s: SessionId, ms: seq<(PeerId, Message)>)
    requires Waiting(st, s) == []
    ensures var b := Kept(st, s, ms); Waiting(b, s) == ms && b == st.(buffer := b.buffer)
  {
  }

  lemma CreationIs(st: State, x: Stimulus)
    requires x.event.DkgInfo?
    ensures Step(st, x) == CreateDkg(x.crypto, x.orders, st, x.now, x.event.s, x.event.t, x.event.n, x.event.participants, x.depth)
  {
  }

  /** Packages that came before their session count: after the creation the table
      holds exactly them, and with all n - 1 of them round 2 has begun. */
  lemma EarlyPackagesCount(st: State, s: SessionId, t: nat, n: nat, early: seq<Stimulus>, ids: seq<Identifier>, x: Stimulus)
    requires s !in st.data && Waiting(st, s) == [] && Creates(st, s, t, n, x)
    requires D.Get(st.store, D.Round1, s) == map[] && D.Get(st.store, D.Round2, s) == map[]
    requires FromSome(x.crypto.formats, x.orders, Added(st, x.now, s, SessionData(t, n, NOBODY, ""), x.event.participants), s, early, ids)
    requires |early| <= n - 1
    requires |early| == n - 1 ==> (D.SecretPackage(t, n), Collected(early, ids)) in x.crypto.part2
    ensures var b := Opened(x.crypto, st, x.now, s, t, n, x.event.participants, Entries(early));
            && Prepared(b, s, t, n) && Run(st, early + [x]) == Some(Reached(b, s, t, n, Collected(early, ids)))
    ensures var end := Run(st, early + [x]).value;
            && D.Get(end.store, D.Round1, s) == Collected(early, ids)
            && DkgOf(end, s) == if |early| < n - 1 then Round1Initiated else Round2Initiated
  {
    EarlyPackagesWait(st, s, early);
    CreationReplays(st, s, t, n, early, ids, x);
    RunAppend(st, early, x, Kept(st, s, Entries(early)));
    CollectedSize(early, ids);
    ReachedHolds(Opened(x.crypto, st, x.now, s, t, n, x.event.participants, Entries(early)), s, t, n, Collected(early, ids));
  }

  // ---------------------------------------------------------------- any split

  ghost predicate Parse(f: Formats, all: seq<Stimulus>, ids: seq<Identifier>) {
    && |all| == |ids| && NoDup(ids)
    && forall i :: 0 <= i < |all| ==> all[i].event.GossipEvent? && all[i].event.message.bytes in f.round1Parses
  }

  /** From the e-th on they reach the session. */
  ghost predicate Late(f: Formats, b: State, s: SessionId, all: seq<Stimulus>, ids: seq<Identifier>, e: nat) {
    && |all| == |ids| && e <= |all|
    && forall i :: e <= i < |all| ==>
         && Reaches(b, s, all[i]) && all[i].event.message.DkgRound1? && all[i].crypto.formats == f
         && P.IdentifierOfPeer(all[i].orders, b.peers, s, all[i].event.sender) == P.Found(ids[i])
  }

  /** All of that, for the prepared session b of n, and the library takes the
      packages if there are n - 1 of them. */
  ghost predicate Follow(f: Formats, b: State, s: SessionId, t: nat, n: nat, all: seq<Stimulus>, ids: seq<Identifier>, e: nat) {
    && Prepared(b, s, t, n) && n >= 2 && |all| <= n - 1 && Parse(f, all, ids) && Late(f, b, s, all, ids, e)
    && (|all| == n - 1 && e < n - 1 ==> (D.SecretPackage(t, n), Collected(all, ids)) in all[n - 2].crypto.part2)
  }

  /** The packages that come after the creation continue where the first e, which
      came before it, have brought the session. */
  lemma LatePackagesContinue(f: Formats, b: State, s: SessionId, t: nat, n: nat, all: seq<Stimulus>, ids: seq<Identifier>, e: nat)
    requires Follow(f, b, s, t, n, all, ids, e)
    ensures Run(At(b, s, t, n, all, ids, e), all[e..]) == Some(At(b, s, t, n, all, ids, |all|))
  {
    var states := seq(|all| + 1, i requires 0 <= i <= |all| => At(b, s, t, n, all, ids, i));
    forall i | e <= i < |all| ensures Goes(states[i], all[i], states[i + 1]) {
      LateGoes(f, b, s, t, n, all, ids, e, i);
    }
    TraceRunsFrom(states, all, e);
  }

  lemma LateGoes(f: Formats, b: State, s: SessionId, t: nat, n: nat, all: seq<Stimulus>, ids: seq<Identifier>, e: nat, k: nat)
    requires Follow(f, b, s, t, n, all, ids, e) && e <= k < |all|
    ensures Goes(At(b, s, t, n, all, ids, k), all[k], At(b, s, t, n, all, ids, k + 1))
  {
    var upTo, ids' := all[..k + 1], ids[..k + 1];
    assert upTo[..k] == all[..k] && ids'[..k] == ids[..k];
    assert k + 1 == |all| ==> upTo == all && ids' == ids;
    LateOne(f, b, s, t, n, upTo, ids', all[k]);
  }

  /** The last of `all` arrives. */
  lemma LateOne(f: Formats, b: State, s: SessionId, t: nat, n: nat, all: seq<Stimulus>, ids: seq<Identifier>, x: Stimulus)
    requires Prepared(b, s, t, n) && n >= 2 && |ids| == |all| <= n - 1 && NoDup(ids) && all != [] && x == all[|all| - 1]
    requires forall i :: 0 <= i < |all| ==> all[i].event.GossipEvent? && all[i].event.message.bytes in f.round1Parses
    requires Reaches(b, s, x) && x.event.message.DkgRound1? && x.crypto.formats == f
    requires P.IdentifierOfPeer(x.orders, b.peers, s, x.event.sender) == P.Found(ids[|ids| - 1])
    requires |ids| == n - 1 ==> (D.SecretPackage(t, n), Collected(all, ids)) in x.crypto.part2
    ensures var k := |all| - 1;
            Step(Reached(b, s, t, n, Collected(all[..k], ids[..k])), x) == Returned(Reached(b, s, t, n, Collected(all, ids)), None)
  {
    var k := |all| - 1;
    assert all[..k + 1] == all && ids[..k + 1] == ids;
    PrefixNext(all, ids, f, k);
    var m, m' := Collected(all[..k], ids[..k]), Collected(all, ids);
    Round1Step(b, s, t, n, m, x, ids[k]);
    if |m'| == n - 1 {
      Round2Starts(x.crypto, x.orders, b, s, t, n, m', x.depth);
    }
  }

  /** It does not matter how the round-1 packages of the others are split around the
      creation of the session: with the round-2 packages behind them the node ends
      in `KeyGenerated`, with the tables and key files of an orderly run. */
  lemma AnySplitGenerates(f: Formats, st: State, s: SessionId, t: nat, n: nat, early: seq<Stimulus>, x: Stimulus, late: seq<Stimulus>,
                          ids: seq<Identifier>, run2: seq<Stimulus>, ids2: seq<Identifier>, me: Identifier)
    requires s !in st.data && Waiting(st, s) == [] && Creates(st, s, t, n, x) && x.crypto.formats == f
    requires D.Get(st.store, D.Round1, s) == map[] && D.Get(st.store, D.Round2, s) == map[]
    requires |ids| == |early| + |late| == n - 1 && NoDup(ids)
    requires var added := Added(st, x.now, s, SessionData(t, n, NOBODY, ""), x.event.participants);
             && FromSome(f, x.orders, added, s, early, ids[..|early|])
             && FromEach(added, s, late, ids[|early|..]) && AreRound1(f, late)
             && FromEach(added, s, run2, ids2) && AreRound2(f, added, run2) && |run2| == n - 1
             && P.IdentifierOfAccount(run2[n - 2].orders, added.peers, s, st.validatorKey) == P.Found(me)
    requires (D.SecretPackage(t, n), Collected(early + late, ids)) in (if late == [] then x else late[|late| - 1]).crypto.part2
    requires (D.SecretPackage(t, n), Collected(early + late, ids), Collected(run2, ids2)) in run2[n - 2].crypto.part3
    ensures var b := Opened(x.crypto, st, x.now, s, t, n, x.event.participants, Entries(early));
            var end := Run(st, early + [x] + late + run2);
            && end == Some(Generated(b, s, t, n, Collected(early + late, ids), Collected(run2, ids2), me))
            && DkgOf(end.value, s) == KeyGenerated
            && end.value.keys == st.keys[(s, PubKey, me) := D.PublicKeys][(s, Key, me) := D.KeyPackage(t)]
  {
    var b, m := Opened(x.crypto, st, x.now, s, t, n, x.event.participants, Entries(early)), Collected(early + late, ids);
    FirstHalf(f, st, s, t, n, early, x, late, ids);
    OpenedKnows(x, st, s, t, n, early, run2, ids2);
    OpenedFrame(x.crypto, st, x.now, s, t, n, x.event.participants, Entries(early));
    WholeParses(f, early, late, ids);
    SecondHalf(f, b, s, t, n, m, run2, ids2, me);
    RunJoin(st, early + [x] + late, InSecondRound(b, s, t, n, m), run2, Generated(b, s, t, n, m, Collected(run2, ids2), me));
  }

  lemma FirstHalf(f: Formats, st: State, s: SessionId, t: nat, n: nat, early: seq<Stimulus>, x: Stimulus, late: seq<Stimulus>, ids: seq<Identifier>)
    requires s !in st.data && Waiting(st, s) == [] && Creates(st, s, t, n, x) && x.crypto.formats == f
    requires D.Get(st.store, D.Round1, s) == map[] && D.Get(st.store, D.Round2, s) == map[]
    requires |ids| == |early| + |late| == n - 1 && NoDup(ids)
    requires var added := Added(st, x.now, s, SessionData(t, n, NOBODY, ""), x.event.participants);
             && FromSome(f, x.orders, added, s, early, ids[..|early|])
             && FromEach(added, s, late, ids[|early|..]) && AreRound1(f, late)
    requires (D.SecretPackage(t, n), Collected(early + late, ids)) in (if late == [] then x else late[|late| - 1]).crypto.part2
    ensures var b := Opened(x.crypto, st, x.now, s, t, n, x.event.participants, Entries(early));
            && Prepared(b, s, t, n)
            && Run(st, early + [x] + late) == Some(InSecondRound(b, s, t, n, Collected(early + late, ids)))
  {
    var b, e := Opened(x.crypto, st, x.now, s, t, n, x.event.participants, Entries(early)), |early|;
    assert late == [] ==> early + late == early && ids[..e] == ids;
    EarlyPackagesCount(st, s, t, n, early, ids[..e], x);
    OpenedFollow(f, st, b, s, t, n, early, x, late, ids);
    Joined(f, st, early + [x], b, s, t, n, early, late, ids);
  }

  lemma OpenedFollow(f: Formats, st: State, b: State, s: SessionId, t: nat, n: nat, early: seq<Stimulus>, x: Stimulus, late: seq<Stimulus>, ids: seq<Identifier>)
    requires Creates(st, s, t, n, x) && |ids| == |early| + |late| == n - 1 && NoDup(ids)
    requires var added := Added(st, x.now, s, SessionData(t, n, NOBODY, ""), x.event.participants);
             && FromSome(f, x.orders, added, s, early, ids[..|early|])
             && FromEach(added, s, late, ids[|early|..]) && AreRound1(f, late)
    requires late != [] ==> (D.SecretPackage(t, n), Collected(early + late, ids)) in late[|late| - 1].crypto.part2
    requires b == Opened(x.crypto, st, x.now, s, t, n, x.event.participants, Entries(early)) && Prepared(b, s, t, n)
    ensures Follow(f, b, s, t, n, early + late, ids, |early|)
  {
    OpenedKnows(x, st, s, t, n, early, late, ids[|early|..]);
    TogetherFollow(f, b, s, t, n, early, late, ids);
  }

  lemma TogetherFollow(f: Formats, b: State, s: SessionId, t: nat, n: nat, early: seq<Stimulus>, late: seq<Stimulus>, ids: seq<Identifier>)
    requires Prepared(b, s, t, n) && n >= 2 && |ids| == |early| + |late| == n - 1 && NoDup(ids)
    requires forall i :: 0 <= i < |early| ==> early[i].event.GossipEvent? && early[i].event.message.bytes in f.round1Parses
    requires FromEach(b, s, late, ids[|early|..]) && AreRound1(f, late)
    requires late != [] ==> (D.SecretPackage(t, n), Collected(early + late, ids)) in late[|late| - 1].crypto.part2
    ensures Follow(f, b, s, t, n, early + late, ids, |early|)
  {
    SplitsAt(f, b, s, early, late, ids);
    assert late != [] ==> (early + late)[n - 2] == late[|late| - 1];
  }

  lemma Joined(f: Formats, st: State, run: seq<Stimulus>, b: State, s: SessionId, t: nat, n: nat,
               early: seq<Stimulus>, late: seq<Stimulus>, ids: seq<Identifier>)
    requires |ids| == |early| + |late| == n - 1 && Follow(f, b, s, t, n, early + late, ids, |early|)
    requires (forall i :: 0 <= i < |early| ==> early[i].event.GossipEvent?)
    requires Run(st, run) == Some(Reached(b, s, t, n, Collected(early, ids[..|early|])))
    ensures Run(st, run + late) == Some(InSecondRound(b, s, t, n, Collected(early + late, ids)))
  {
    var all, e := early + late, |early|;
    LatePackagesContinue(f, b, s, t, n, all, ids, e);
    assert all[..e] == early && all[e..] == late && all[..|all|] == all && ids[..|all|] == ids;
    CollectedSize(all, ids);
    RunJoin(st, run, At(b, s, t, n, all, ids, e), late, At(b, s, t, n, all, ids, |all|));
  }

  lemma SplitsAt(f: Formats, b: State, s: SessionId, early: seq<Stimulus>, late: seq<Stimulus>, ids: seq<Identifier>)
    requires |ids| == |early| + |late| && NoDup(ids)
    requires forall i :: 0 <= i < |early| ==> early[i].event.GossipEvent? && early[i].event.message.bytes in f.round1Parses
    requires FromEach(b, s, late, ids[|early|..]) && AreRound1(f, late)
    ensures var all := early + late;
            all[..|early|] == early && all[|early|..] == late && Parse(f, all, ids) && Late(f, b, s, all, ids, |early|)
  {
    var all, e := early + late, |early|;
    forall i | e <= i < |all|
      ensures all[i] == late[i - e] && ids[i] == ids[e..][i - e] && late[i - e] in late
    {
    }
  }

  lemma WholeParses(f: Formats, early: seq<Stimulus>, late: seq<Stimulus>, ids: seq<Identifier>)
    requires |ids| == |early| + |late| && NoDup(ids)
    requires forall i :: 0 <= i < |early| ==> early[i].event.GossipEvent? && early[i].event.message.bytes in f.round1Parses
    requires AreRound1(f, late)
    ensures var m := Collected(early + late, ids); |m| == |ids| && forall id :: id in m ==> m[id] in f.round1Parses
  {
    CollectedParse(early + late, ids, f.round1Parses);
    CollectedSize(early + late, ids);
  }

  /** Whoever is known once the session is recorded is known when it is open. */
  lemma OpenedKnows(x: Stimulus, st: State, s: SessionId, t: nat, n: nat, early: seq<Stimulus>, run: seq<Stimulus>, ids: seq<Identifier>)
    requires Creates(st, s, t, n, x) && forall i :: 0 <= i < |early| ==> early[i].event.GossipEvent?
    requires FromEach(Added(st, x.now, s, SessionData(t, n, NOBODY, ""), x.event.participants), s, run, ids)
    ensures FromEach(Opened(x.crypto, st, x.now, s, t, n, x.event.participants, Entries(early)), s, run, ids)
  {
    OpenedFrame(x.crypto, st, x.now, s, t, n, x.event.participants, Entries(early));
  }

  lemma OpenedFrame(c: Crypto, st: State, now: int, s: SessionId, t: nat, n: nat, participants: seq<Account>, ms: seq<(PeerId, Message)>)
    requires P.AddParticipants(st.peers, s, participants).Some?
    ensures SameFrame(Opened(c, st, now, s, t, n, participants, ms), Added(st, now, s, SessionData(t, n, NOBODY, ""), participants))
  {
    var d := SessionData(t, n, NOBODY, "");
    var added := Added(Kept(st, s, ms), now, s, d, participants);
    assert SameFrame(added, Added(st, now, s, d, participants));
    BegunFrame(added, s, t, n);
    PhaseFrame(c, Begun(added, s, t, n), (E.Keygen, s));
  }

  /** Everything that lookups and key files depend on. */
  ghost predicate SameFrame(a: State, b: State) {
    && a.data == b.data && a.stamps == b.stamps && a.peers == b.peers
    && a.localPeer == b.localPeer && a.validatorKey == b.validatorKey && a.keys == b.keys
  }

  lemma BegunFrame(st: State, s: SessionId, t: nat, n: nat)
    ensures SameFrame(Begun(st, s, t, n), st)
  {
  }

  lemma PhaseFrame(c: Crypto, st: State, slot: E.Slot)
    ensures SameFrame(WithPhase(c, st, slot), st)
  {
  }
}
